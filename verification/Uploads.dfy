/** A chunked upload, run by its chunk requests: write_chunk and end of
    storages/upload.py. Any step may fail or be the last of its process; between
    steps a cancel may be asked and files of others may come and go. */
module Uploads {
  import opened Wrappers
  import opened Records
  import opened Faults
  import opened UploadTargets
  import opened UploadTrails

  const IDLE_SECONDS: int := 3600

  /** A request for a chunk, a cancel, a pass of the idle check; there: whether
      the compute still is. */
  datatype Request = Chunk(index: nat, now: Time) | Cancel(there: bool, now: Time) | Expiry(there: bool, now: Time)

  /** A cancel or an idle check that found the compute gone. */
  predicate FindsGone(request: Request) {
    match request
    case Chunk(_, _) => false
    case Cancel(there, _) => !there
    case Expiry(there, _) => !there
  }

  class Upload {
    const target: Target
    const size: nat             // declared by the client
    const chunks: seq<Bytes>    // what the client sends: a retry of an index sends the same bytes
    const smooth: bool          // no step fails, no process dies, nobody interferes
    const alone: bool           // no other file ever has the image's name

    var view: View
    var next: nat               // intent["chunk"]
    var created: bool           // intent["created"]
    var offset: nat             // progress_done, 0 for NULL
    var cancelRequested: bool
    var heartbeatAt: Time
    ghost var trail: seq<Snap>  // what the upload was after each step since its creation

    /** The upload is where its history left it, and the row counts the
        committed chunks. */
    ghost predicate Valid()
      reads this
    {
      && 0 < |chunks| && next <= |chunks| && offset == |Joined(chunks, next)| && offset <= size
      && (next > 0 ==> created)
      && (!created ==> view.part.None?)
      && (next == |chunks| ==> offset == size)
      && Sound(Snap(view, next), target, chunks)
      && (view.state == Cancelled ==> cancelRequested)
      && (alone ==> !Foreign(view) && !view.taken)
      && Walked(trail, target, chunks) && trail[|trail| - 1] == Snap(view, next)
    }

    constructor (target: Target, size: nat, chunks: seq<Bytes>, image: Option<Image>, smooth: bool, alone: bool,
                 now: Time)
      requires size > 0 && |chunks| >= 1
      requires image.Some? ==> !image.value.ours && target != Volume && !alone
      ensures Valid() && view.state == Running && next == 0 && !created
      ensures this.target == target && this.size == size && this.chunks == chunks && this.smooth == smooth
              && this.alone == alone
      ensures trail == [Snap(view, next)]
      ensures view.image == image && !cancelRequested && heartbeatAt == now && view.part.None?
    {
      this.target, this.size, this.chunks, this.smooth, this.alone := target, size, chunks, smooth, alone;
      view := View(Running, None, None, image, false);
      next, created, offset, cancelRequested, heartbeatAt := 0, false, 0, false, now;
      trail := [Snap(View(Running, None, None, image, false), 0)];
    }

    /** The step just made goes into the history. */
    ghost method Note()
      requires Walked(trail, target, chunks)
      requires trail[|trail| - 1] == Snap(view, next) || Passes(trail[|trail| - 1], Snap(view, next), target, chunks)
      modifies this`trail
      ensures Walked(trail, target, chunks) && trail[|trail| - 1] == Snap(view, next) && old(trail) <= trail
      ensures Sound(old(trail[|trail| - 1]), target, chunks) ==> Sound(Snap(view, next), target, chunks)
    {
      if trail[|trail| - 1] != Snap(view, next) {
        if Sound(trail[|trail| - 1], target, chunks) {
          PassKeepsSound(trail[|trail| - 1], Snap(view, next), target, chunks);
        }
        WalkGoesOn(trail, Snap(view, next), target, chunks);
        trail := trail + [Snap(view, next)];
      }
    }

    /** What others may do between two steps of a request: a user asks a cancel,
        and a file of the image's name that is not the upload's comes or goes. */
    method Meanwhile()
      requires Valid()
      modifies this`view, this`cancelRequested, this`trail
      ensures Valid() && old(trail) <= trail
      ensures view.part == old(view.part) && view.taken == old(view.taken) && view.why == old(view.why)
      ensures Active(view.state) == Active(old(view.state))
      ensures old(cancelRequested) ==> cancelRequested
      ensures !Active(view.state) || smooth ==> view == old(view) && cancelRequested == old(cancelRequested)
    {
      if smooth {
        return;
      }
      var cancel := *;
      if cancel && Active(view.state) {
        view := view.(state := Cancelling);
        cancelRequested := true;
      }
      var other: Option<Bytes> := *;
      if target != Volume && !alone && Active(view.state) && !Own(view) {
        view := view.(image := if other.Some? then Some(Image(other.value, false)) else None);
      }
      Note();
    }

    // -- steps ----------------------------------------------------------------

    /** jobs.finish: the job is active, and only its requests end it. */
    method Finish(state: State, why: Ending) returns (fate: Fate)
      requires Active(view.state)
      modifies this`view
      ensures view == Concluded(old(view), state, why, fate) && (smooth ==> fate == Works)
    {
      fate := Fated(smooth);
      if Effective(fate) {
        view := view.(state := state, why := Some(why));
      }
    }

    method Finalize(f: FinalFates) returns (end: Finalizing)
      requires view.part.Some?
      modifies this`view
      ensures (view, end) == Finalized(old(view), target, f)
    {
      var r := Finalized(view, target, f);
      view, end := r.0, r.1;
    }

    /** The upload goes on after a committed chunk. */
    predicate Continues(before: View, asked: bool, now: Time)
      reads this
    {
      && view == before.(part := view.part) && view.part.Some?
      && cancelRequested == asked && heartbeatAt == now
    }

    /** A chunk write_chunk takes now: the next one, in time, of a size that fits. */
    predicate Welcome(index: nat, now: Time)
      requires index < |chunks|
      reads this
    {
      && Active(view.state) && !cancelRequested && index == next && heartbeatAt >= now - IDLE_SECONDS
      && 0 < |chunks[index]| && offset + |chunks[index]| <= size
      && (index == |chunks| - 1 ==> offset + |chunks[index]| == size)
      && (view.part.None? ==> offset == 0)
    }

    /** target.remove(), when the part file is there. */
    method Remove() returns (fate: Fate)
      modifies this`view
      ensures view == (if old(view).part.Some? then Removed(old(view), fate) else old(view))
      ensures fate.Works? ==> view.part.None?
      ensures smooth ==> fate == Works
    {
      fate := Fated(smooth);
      if view.part.None? {
        // present() may still raise, or be the last step
        fate := if Dies(fate) then DiesBefore else if Fails(fate) then FailsBefore else Works;
      } else if Effective(fate) {
        view := view.(part := None);
      }
    }

    /** _complete, recorded as one step of the history. */
    method Complete() returns (reply: Reply, f: Fates)
      requires Valid() && Active(view.state) && next == |chunks|
      modifies this`view, this`trail
      ensures (view, reply) == Completion(old(view), target, f)
      ensures Valid() && old(trail) <= trail
      ensures smooth ==> f == SMOOTH
    {
      ghost var was := view;
      reply, f := TryComplete();
      DeletedForItsNameIff(was, target, f);
      assert Completes(Snap(was, next), Snap(view, next), target, chunks);
      Note();
    }

    /** What its callers rely on. */
    method CompleteNow() returns (reply: Reply)
      requires Valid() && Active(view.state) && next == |chunks|
      modifies this`view, this`trail
      ensures Valid() && old(trail) <= trail
      ensures reply == Accepted ==> view.state == Succeeded
      ensures view.why.None? || view.why.value in {Completed, NameTaken, ImageMissing}
      ensures reply == Refused ==> !Active(view.state)
      ensures smooth ==> !Active(view.state) && (reply == Accepted || reply == Refused)
      ensures smooth && old((view.part.Some? && view.image.None?) || (view.part.None? && Own(view))) ==>
                reply == Accepted && view.state == Succeeded && Stored(view, target) == Some(Joined(chunks, |chunks|))
    {
      CompletionUndisturbed(view, target);
      var f;
      reply, f := Complete();
    }

    /** The steps of _complete. */
    method TryComplete() returns (reply: Reply, f: Fates)
      requires Active(view.state)
      modifies this`view
      ensures (view, reply) == Completion(old(view), target, f)
      ensures smooth ==> f == SMOOTH
    {
      f := *;
      if smooth {
        f := SMOOTH;
      }
      if !f.look.Works? {
        return if Dies(f.look) then Died else Raised, f;
      }
      if view.part.None? {
        if target == Volume || view.image.None? {
          var fate := Finish(Failed, ImageMissing);
          return After(fate, Refused), f.(finish := fate);
        }
      } else {
        var end := Finalize(f.final);
        match end
        case Dead =>
          return Died, f;
        case Trouble =>
          return Raised, f;
        case Exists =>
          ghost var was := view;
          var fate := Remove();
          f := f.(remove := fate);
          if Effective(fate) {
            view := view.(taken := view.taken || Foreign(view));
          }
          assert view == GivenUp(was, fate);
          if !fate.Works? {
            return if Dies(fate) then Died else Raised, f;
          }
          var ended := Finish(Failed, NameTaken);
          return After(ended, Refused), f.(finish := ended);
        case Placed =>
      }
      var ended := Finish(Succeeded, Completed);
      return After(ended, Accepted), f.(finish := ended);
    }

    /** _end: what the upload made goes, then the job ends. */
    method EndUnfinished(state: State, why: Ending) returns (reply: Reply)
      requires Valid() && Active(view.state) && next < |chunks|
      requires (state == Failed && why == Idle) || (state == Cancelled && why == Stopped && cancelRequested)
      modifies this`view, this`trail
      ensures Valid() && old(trail) <= trail && view.taken == old(view.taken)
      ensures view.why == old(view.why) || view.why == Some(why)
      ensures reply == Refused ==> view.state == state && view.why == Some(why) && view.part.None?
      ensures reply != Accepted && (smooth ==> reply == Refused)
    {
      if created {
        var fate := Remove();
        Note();
        if !fate.Works? {
          return if Dies(fate) then Died else Raised;
        }
      }
      var fate := Finish(state, why);
      Note();
      reply := After(fate, Refused);
    }

    /** target.write: the bytes before offset stay; a failed write may leave
        any others after them, and a first one any bytes or no file. */
    method Write(chunk: Bytes, first: bool) returns (fate: Fate)
      requires Valid() && Active(view.state) && next < |chunks| && created
      requires if first then view.part.None? && offset == 0 else view.part.Some?
      modifies this`view
      ensures view == old(view).(part := view.part)
      ensures view.part.Some? ==> Joined(chunks, next) <= view.part.value
      ensures !first ==> view.part.Some?
      ensures smooth ==> fate == Works
      // only a volume has bytes beyond what was written
      ensures fate.Works? && target != Volume ==> view.part == Some(Joined(chunks, next) + chunk)
      ensures fate.Works? ==>
                && view.part.Some?
                && Joined(chunks, next) + chunk <= view.part.value
                && (offset + |chunk| == size ==> view.part.value == Joined(chunks, next) + chunk)
    {
      var kept := Joined(chunks, next);
      var rest: Bytes := *;
      fate := Fated(smooth);
      if fate.Works? {
        // a volume has its declared capacity from the start
        var tail := if target == Volume && |kept| + |chunk| < size then rest else [];
        assert kept + chunk + [] == kept + chunk;
        view := view.(part := Some(kept + chunk + tail));
      } else if fate.FailsAfter? || fate.DiesAfter? {
        view := view.(part := Some(kept + rest));
      }
    }

    /** write_chunk, once it holds the upload's session claim. */
    method WriteChunk(index: nat, now: Time) returns (reply: Reply)
      requires Valid() && index < |chunks|
      modifies this
      ensures Valid() && old(trail) <= trail
      ensures old(next) < |chunks| && index < |chunks| - 1 ==> view.taken == old(view.taken)
      ensures old(next) <= next
      ensures Active(old(view.state)) && view.why.Some? ==>
                && view.why != Some(ComputeGone)
                && (view.why == Some(Idle) ==> index == old(next) && old(heartbeatAt) < now - 3600)
      ensures !Active(old(view.state)) ==> view == old(view)
      ensures reply == Accepted ==> if index == |chunks| - 1 then view.state == Succeeded else next > index
      // an upload that ended takes no chunk; the last one of a success is there already
      ensures !Active(old(view.state)) ==>
                reply == if old(view.state) == Succeeded && index == |chunks| - 1 then Accepted else Refused
      // with all chunks in, the last one again completes the upload, another is taken as done
      ensures smooth && old(Active(view.state) && next == |chunks|) ==>
                if index < |chunks| - 1 then reply == Accepted && view == old(view)
                else
                  && !Active(view.state)
                  && (old((view.part.Some? && view.image.None?) || (view.part.None? && Own(view))) ==>
                        reply == Accepted && Stored(view, target) == Some(Joined(chunks, |chunks|)))
      // undisturbed, a request out of turn changes nothing, a late one ends the upload
      ensures smooth && old(Active(view.state) && !cancelRequested && index != next && next < |chunks|) ==>
                view == old(view) && next == old(next) && reply == if index < next then Accepted else Refused
      ensures smooth && old(Active(view.state) && next < |chunks|)
              && (old(cancelRequested) || (index == old(next) && old(heartbeatAt) < now - IDLE_SECONDS)) ==>
                reply == Refused && view.part.None? && view.why == Some(if old(cancelRequested) then Stopped else Idle)
      // the next chunk is taken, and the last one completes the upload
      ensures smooth && old(Welcome(index, now)) ==>
                && next == old(next) + 1
                && (old(view).image.None? ==>
                      && reply == Accepted
                      && (index == |chunks| - 1 ==> Stored(view, target) == Some(Joined(chunks, |chunks|))))
                && (if index == |chunks| - 1 then !Active(view.state)
                    else Continues(old(view), old(cancelRequested), now))
    {
      Meanwhile();
      var last := index == |chunks| - 1;
      var chunk := chunks[index];
      if view.state == Succeeded && last {
        return Accepted;
      }
      if !Active(view.state) {
        return Refused;
      }
      if cancelRequested && next < |chunks| {
        reply := EndUnfinished(Cancelled, Stopped);
        return;
      }
      if index > next {
        return Refused;
      }
      if index < next {
        if last && next == |chunks| {
          reply := CompleteNow();
          return;
        }
        return Accepted;
      }
      if heartbeatAt < now - IDLE_SECONDS {
        reply := EndUnfinished(Failed, Idle);
        return;
      }
      if |chunk| == 0 || offset + |chunk| > size || (last && offset + |chunk| != size) {
        return Refused;
      }
      reply := Append(chunk, last, now);
    }

    /** The write of the next chunk, once the job says a part file may be there. */
    method WriteNext(chunk: Bytes) returns (fate: Fate)
      requires Valid() && Active(view.state) && next < |chunks| && chunk == chunks[next]
      requires offset + |chunk| <= size
      requires view.part.None? ==> offset == 0
      modifies this`view, this`created, this`cancelRequested, this`trail
      ensures Valid() && old(trail) <= trail && view.taken == old(view.taken)
      ensures Active(view.state)
      ensures smooth ==>
                && fate == Works && view == old(view).(part := view.part)
                && cancelRequested == old(cancelRequested)
      ensures fate.Works? ==>
                && created && view.part.Some?
                && Joined(chunks, next) + chunk <= view.part.value
                && (offset + |chunk| == size ==> view.part.value == Joined(chunks, next) + chunk)
    {
      var first := view.part.None?;
      if !created {
        fate := Fated(smooth);
        if Effective(fate) {
          created := true;
        }
        if !fate.Works? {
          return;
        }
      }
      Meanwhile();
      fate := Write(chunk, first);
      Note();
    }

    /** The commit of the chunk just written. */
    method Commit(chunk: Bytes, now: Time) returns (fate: Fate)
      requires Valid() && Active(view.state) && next < |chunks| && chunk == chunks[next]
      requires created && view.part.Some? && Joined(chunks, next) + chunk <= view.part.value
      requires offset + |chunk| == size ==> view.part.value == Joined(chunks, next) + chunk
      requires 0 < |chunk| && offset + |chunk| <= size
      requires next == |chunks| - 1 ==> offset + |chunk| == size
      modifies this`next, this`offset, this`heartbeatAt, this`trail
      ensures Valid() && old(trail) <= trail
      ensures next == if Effective(fate) then old(next) + 1 else old(next)
      ensures Effective(fate) ==> heartbeatAt == now
      ensures smooth ==> fate == Works
    {
      fate := Fated(smooth);
      if Effective(fate) {
        assert Joined(chunks, next + 1) == Joined(chunks, next) + chunk;
        next, offset, heartbeatAt := next + 1, offset + |chunk|, now;
        Note();
      }
    }

    /** The rest of write_chunk: the next chunk is written and committed. */
    method Append(chunk: Bytes, last: bool, now: Time) returns (reply: Reply)
      requires Valid() && Active(view.state) && next < |chunks| && chunk == chunks[next]
      requires last == (next == |chunks| - 1)
      requires 0 < |chunk| && offset + |chunk| <= size && (last ==> offset + |chunk| == size)
      modifies this
      ensures Valid() && old(trail) <= trail && (!last ==> view.taken == old(view.taken))
      ensures view.why.None? || view.why.value in {PartMissing, Stopped, Completed, NameTaken, ImageMissing}
      ensures reply == Refused ==> !Active(view.state)
      ensures old(next) <= next && (reply == Accepted ==> next == old(next) + 1 && (last ==> view.state == Succeeded))
      ensures smooth && !old(cancelRequested) && (old(view).part.None? ==> old(offset) == 0) ==>
                && next == old(next) + 1
                && (old(view).image.None? ==>
                      reply == Accepted && (last ==> Stored(view, target) == Some(Joined(chunks, |chunks|))))
                && (if last then !Active(view.state) else Continues(old(view), old(cancelRequested), now))
    {
      if view.part.None? && offset > 0 {
        var fate := Finish(Failed, PartMissing);
        Note();
        return After(fate, Refused);
      }
      var written := WriteNext(chunk);
      if !written.Works? {
        return if Dies(written) then Died else Raised;
      }
      var committed := Commit(chunk, now);
      Meanwhile();
      if !committed.Works? {
        return if Dies(committed) then Died else Raised;
      }
      if last {
        reply := CompleteNow();
      } else if cancelRequested {
        reply := EndUnfinished(Cancelled, Stopped);
      } else {
        reply := Accepted;
      }
    }

    /** end, once it holds the session claim; expiry: from the idle check, not
        from a cancel, which recorded its request first. */
    method End(expiry: bool, computeThere: bool, now: Time) returns (reply: Reply)
      requires Valid() && (!expiry ==> cancelRequested || !Active(view.state))
      modifies this
      ensures Valid() && old(trail) <= trail && (next < |chunks| ==> view.taken == old(view.taken))
      ensures old(next) == next && (old(cancelRequested) ==> cancelRequested)
      ensures !Active(old(view.state)) ==> view == old(view)
      ensures reply == Accepted ==> view.state == Succeeded
      ensures reply == Refused && Active(view.state) ==> expiry && !(old(heartbeatAt) < now - 3600)
      // an idle check ends only an upload idle for an hour; nothing is left behind but on a compute that is gone
      ensures Active(old(view.state)) && view.why == Some(Idle) ==> expiry && old(heartbeatAt) < now - 3600
      ensures Active(old(view.state)) && view.why == Some(ComputeGone) ==> !computeThere && created
      ensures Active(old(view.state)) && !Active(view.state) && (computeThere || !created) && next < |chunks| ==>
                view.part.None?
      // undisturbed: too early, nothing; no part file yet, or not all in, the end asked for with nothing left
      ensures smooth && expiry && !(old(heartbeatAt) < now - 3600) ==> view == old(view)
      ensures smooth && Active(old(view.state)) && (!expiry || old(heartbeatAt) < now - 3600) ==>
                && !Active(view.state)
                && (!created || (computeThere && next < |chunks|) ==>
                      && view.part.None?
                      && if old(cancelRequested) then view.state == Cancelled && view.why == Some(Stopped)
                         else view.state == Failed && view.why == Some(Idle))
                && (created && !computeThere ==> view == old(view).(state := Failed, why := Some(ComputeGone)))
                // all in, its name free or already its own, the upload succeeds all the same
                && (created && computeThere && next == |chunks|
                    && old((view.part.Some? && view.image.None?) || (view.part.None? && Own(view))) ==>
                      view.state == Succeeded && Stored(view, target) == Some(Joined(chunks, |chunks|)))
    {
      Meanwhile();
      if !Active(view.state) || (expiry && !(heartbeatAt < now - IDLE_SECONDS)) {
        return Refused;
      }
      reply := EndNow(computeThere);
    }

    /** The end that was asked for, or that the idle check found due. */
    method EndNow(computeThere: bool) returns (reply: Reply)
      requires Valid() && Active(view.state)
      modifies this`view, this`trail
      ensures Valid() && old(trail) <= trail && (next < |chunks| ==> view.taken == old(view.taken))
      ensures view.why == Some(ComputeGone) ==> !computeThere && created
      ensures reply == Accepted ==> view.state == Succeeded
      ensures reply == Refused ==> !Active(view.state)
      ensures view.why == Some(Idle) ==> !cancelRequested
      ensures !Active(view.state) && (computeThere || !created) && next < |chunks| ==> view.part.None?
      ensures smooth ==>
                && !Active(view.state)
                && (!created || (computeThere && next < |chunks|) ==>
                      && view.part.None?
                      && if cancelRequested then view.state == Cancelled && view.why == Some(Stopped)
                         else view.state == Failed && view.why == Some(Idle))
                && (created && !computeThere ==> view == old(view).(state := Failed, why := Some(ComputeGone)))
                && (created && computeThere && next == |chunks|
                    && old((view.part.Some? && view.image.None?) || (view.part.None? && Own(view))) ==>
                      view.state == Succeeded && Stored(view, target) == Some(Joined(chunks, |chunks|)))
    {
      var state, why := if cancelRequested then Cancelled else Failed, if cancelRequested then Stopped else Idle;
      if !created {
        var fate := Finish(state, why);
        Note();
        return After(fate, Refused);
      }
      if !computeThere {
        var fate := Finish(Failed, ComputeGone);
        Note();
        return After(fate, Refused);
      }
      if next == |chunks| {
        reply := CompleteNow();
      } else {
        reply := EndUnfinished(state, why);
      }
    }

    /** One request. */
    method Handle(request: Request)
      requires Valid()
      modifies this
      ensures Valid() && old(trail) <= trail && old(next) <= next
      ensures !Active(old(view.state)) ==> view == old(view)
      ensures Active(old(view.state)) && view.why == Some(ComputeGone) ==> FindsGone(request)
      // a cancel is recorded first; undisturbed, it ends the upload, with nothing left of one not all in
      ensures request.Cancel? && Active(old(view.state)) ==> cancelRequested
      ensures smooth && request.Cancel? && Active(old(view.state)) ==>
                && !Active(view.state)
                && (request.there && next < |chunks| ==>
                      view.state == Cancelled && view.why == Some(Stopped) && view.part.None?)
    {
      match request
      case Chunk(index, now) =>
        if index < |chunks| {
          var _ := WriteChunk(index, now);
        }
      case Cancel(there, now) =>
        // jobs.cancel records the request; its process may die before end
        if Active(view.state) {
          view, cancelRequested := view.(state := Cancelling), true;
          Note();
        }
        var dies: bool := *;
        if (!dies || smooth) && cancelRequested {
          var _ := End(false, there, now);
        }
      case Expiry(there, now) =>
        var _ := End(true, there, now);
    }

    /** Any requests in any order, duplicates included, each with its failures
        and deaths: what the upload comes to. */
    method Serve(requests: seq<Request>)
      requires Valid()
      modifies this
      // the history goes on, step by step as Walked says
      ensures Valid() && old(trail) <= trail
      ensures old(next) <= next <= |chunks| && offset == |Joined(chunks, next)|
      ensures !Active(old(view.state)) ==> view == old(view)
      ensures Active(view.state) && view.part.Some? ==> Joined(chunks, next) <= view.part.value
      ensures view.state == Succeeded ==>
                && next == |chunks| && |Joined(chunks, |chunks|)| == size && Stored(view, target).Some?
                && (target == Volume || Own(view) <==> !Seized(trail, chunks))
                && (!Seized(trail, chunks) ==> Stored(view, target) == Some(Joined(chunks, |chunks|)))
      ensures alone && view.state == Succeeded ==> Stored(view, target) == Some(Joined(chunks, |chunks|))
      ensures smooth && (exists i :: 0 <= i < |requests| && requests[i].Cancel?) ==> !Active(view.state)
      ensures view.state == Failed || view.state == Cancelled ==> view.part.None? || view.why == Some(ComputeGone)
      ensures Active(old(view.state)) && view.why == Some(ComputeGone) ==>
                exists i :: 0 <= i < |requests| && FindsGone(requests[i])
      ensures !Active(view.state) && next == |chunks| ==>
                view.why.value in {Completed, NameTaken, ImageMissing, ComputeGone}
    {
      for i := 0 to |requests|
        invariant Valid() && old(next) <= next && old(trail) <= trail
        invariant !Active(old(view.state)) ==> view == old(view)
        invariant smooth && (exists k :: 0 <= k < i && requests[k].Cancel?) ==> !Active(view.state)
        invariant Active(old(view.state)) && view.why == Some(ComputeGone) ==>
                    exists k :: 0 <= k < i && FindsGone(requests[k])
      {
        Handle(requests[i]);
      }
      WalkKeepsSound(trail, target, chunks);
    }

    /** Undisturbed, the chunks in order make the image. */
    method SendAll(now: Time)
      requires Valid() && smooth && view == View(Running, None, None, None, false)
      requires next == 0 && !cancelRequested && heartbeatAt >= now - IDLE_SECONDS
      requires (forall n | 0 <= n < |chunks| :: chunks[n] != []) && |Joined(chunks, |chunks|)| == size
      modifies this
      ensures view.state == Succeeded && Stored(view, target) == Some(Joined(chunks, |chunks|))
    {
      for n := 0 to |chunks|
        invariant Valid() && next == n
        invariant if n < |chunks|
                  then Active(view.state) && view.image.None? && !cancelRequested && heartbeatAt >= now - IDLE_SECONDS
                  else view.state == Succeeded && Stored(view, target) == Some(Joined(chunks, |chunks|))
        invariant 0 < n < |chunks| ==> view.part.Some?
      {
        JoinedGrows(chunks, n + 1, |chunks|);
        assert Joined(chunks, n + 1) == Joined(chunks, n) + chunks[n];
        assert Welcome(n, now);
        var reply := WriteChunk(n, now);
      }
    }
  }
}
