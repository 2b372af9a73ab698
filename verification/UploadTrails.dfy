/** The history of a chunked upload: what each step may change, what every
    history keeps, and when an upload that succeeded has its own image. */
module UploadTrails {
  import opened Wrappers
  import opened Records
  import opened Faults
  import opened UploadTargets

  /** The first n chunks, one after the other. */
  function Joined(chunks: seq<Bytes>, n: nat): Bytes
    requires n <= |chunks|
  {
    if n == 0 then [] else Joined(chunks, n - 1) + chunks[n - 1]
  }

  lemma {:induction false} JoinedGrows(chunks: seq<Bytes>, m: nat, n: nat)
    requires m <= n <= |chunks|
    ensures Joined(chunks, m) <= Joined(chunks, n)
  {
    if m < n {
      JoinedGrows(chunks, m, n - 1);
    }
  }

  /** What the upload has come to; next: intent["chunk"]. */
  datatype Snap = Snap(view: View, next: nat)

  // -- steps ----------------------------------------------------------------------

  /** Others ask a cancel, or a file of the image's name that is not the
      upload's comes or goes. */
  predicate Interferes(s: Snap, t: Snap, target: Target) {
    && t == s.(view := s.view.(state := t.view.state, image := t.view.image))
    && (t.view.state == s.view.state || t.view.state == Cancelling)
    && (t.view.image == s.view.image || (target != Volume && !Own(s.view) && !Own(t.view)))
  }

  /** Before all is in, the part file is written from the committed bytes on, or removed. */
  predicate Writes(s: Snap, t: Snap, chunks: seq<Bytes>) {
    && s.next < |chunks|
    && t == s.(view := s.view.(part := t.view.part))
    && (t.view.part.Some? ==> Joined(chunks, s.next) <= t.view.part.value)
  }

  /** The chunk written is committed. */
  predicate Commits(s: Snap, t: Snap, chunks: seq<Bytes>) {
    && s.next < |chunks| && t == s.(next := s.next + 1)
    && s.view.part.Some? && Joined(chunks, t.next) <= s.view.part.value
    && (t.next == |chunks| ==> s.view.part.value == Joined(chunks, t.next))
  }

  /** The upload ends without its image. */
  predicate Ends(s: Snap, t: Snap, chunks: seq<Bytes>) {
    && t == s.(view := s.view.(state := t.view.state, why := t.view.why))
    && t.view.why.Some? && t.view.why.value in {PartMissing, ComputeGone, Idle, Stopped}
    && (t.view.why == Some(ComputeGone) || (t.view.part.None? && s.next < |chunks|))
    && (t.view.state == Failed || (t.view.state == Cancelled && t.view.why == Some(Stopped)))
  }

  /** An attempt at the completion, wherever it fails or dies. */
  ghost predicate Completes(s: Snap, t: Snap, target: Target, chunks: seq<Bytes>) {
    && s.next == |chunks|
    && exists f :: t == s.(view := Completion(s.view, target, f).0)
  }

  ghost predicate Passes(s: Snap, t: Snap, target: Target, chunks: seq<Bytes>) {
    && Active(s.view.state)
    && (|| Interferes(s, t, target)
        || Writes(s, t, chunks)
        || Commits(s, t, chunks)
        || Ends(s, t, chunks)
        || Completes(s, t, target, chunks))
  }

  /** The upload's history, from its creation on. */
  ghost predicate Walked(trail: seq<Snap>, target: Target, chunks: seq<Bytes>) {
    && trail != []
    && trail[0] == Snap(View(Running, None, None, trail[0].view.image, false), 0)
    && !Own(trail[0].view) && (target == Volume ==> trail[0].view.image.None?)
    && forall n | 0 < n < |trail| :: Passes(trail[n - 1], trail[n], target, chunks)
  }

  /** A step after which the complete part file is gone and another's file has the name. */
  predicate Seizes(s: Snap, t: Snap, chunks: seq<Bytes>) {
    s.next == |chunks| && s.view.part.Some? && t.view.part.None? && Foreign(t.view)
  }

  ghost predicate Seized(trail: seq<Snap>, chunks: seq<Bytes>) {
    exists n | 0 < n < |trail| :: Seizes(trail[n - 1], trail[n], chunks)
  }

  // -- what every history keeps ---------------------------------------------------

  /** Between any two steps, and so at every process's death: the committed
      chunks begin the part file, and an ended upload ended for a reason. */
  predicate Sound(s: Snap, target: Target, chunks: seq<Bytes>) {
    var v := s.view;
    && s.next <= |chunks|
    && (Active(v.state) ==> Begun(v.state) && v.why.None?)
    && (v.part.Some? ==> Joined(chunks, s.next) <= v.part.value)
    && (v.part.Some? && s.next == |chunks| ==> v.part.value == Joined(chunks, s.next))
    && (target == Volume ==> v.image.None? && !v.taken)
    && (Own(v) ==> s.next == |chunks| && v.image.value.bytes == Joined(chunks, s.next))
    && (v.taken ==> v.part.None? && s.next == |chunks| && !Own(v))
    && (Active(v.state) && s.next == |chunks| && v.part.None? && !v.taken ==> Own(v))
    && EndedFor(s, target, chunks)
  }

  /** How an upload may have ended, and what it then left. */
  predicate EndedFor(s: Snap, target: Target, chunks: seq<Bytes>) {
    var v := s.view;
    && (!Active(v.state) ==> v.why.Some?)
    && (v.state == Succeeded ==> v.why == Some(Completed))
    && (v.why == Some(Completed) ==>
          && v.state == Succeeded && s.next == |chunks|
          && (if target == Volume then v.part.Some? else v.image.Some? && (Own(v) <==> !v.taken)))
    && (v.why.Some? && v.why != Some(Completed) ==>
          && (v.state == Failed || v.state == Cancelled)
          && (v.why != Some(ComputeGone) ==> v.part.None?))
    && (v.why.Some? && s.next == |chunks| ==> v.why.value in {Completed, NameTaken, ImageMissing, ComputeGone})
    && (v.state == Cancelled ==> v.why == Some(Stopped))
  }

  lemma CompletionKeepsSound(s: Snap, target: Target, chunks: seq<Bytes>, f: Fates)
    requires Sound(s, target, chunks) && Active(s.view.state) && s.next == |chunks|
    ensures Sound(s.(view := Completion(s.view, target, f).0), target, chunks)
  {
    DeletedForItsNameIff(s.view, target, f);
    if s.view.part.Some? { FinalizationNeverReplaces(s.view, target, f.final); }
  }

  lemma PassKeepsSound(s: Snap, t: Snap, target: Target, chunks: seq<Bytes>)
    requires Sound(s, target, chunks) && Passes(s, t, target, chunks)
    ensures Sound(t, target, chunks)
    ensures t.view.taken <==> s.view.taken || Seizes(s, t, chunks)
  {
    if Completes(s, t, target, chunks) {
      var f :| t == s.(view := Completion(s.view, target, f).0);
      CompletionKeepsSound(s, target, chunks, f);
      DeletedForItsNameIff(s.view, target, f);
    } else if Commits(s, t, chunks) {
      JoinedGrows(chunks, s.next, t.next);
    }
  }

  /** Every history keeps the invariant, and taken tells its seizures. */
  lemma {:induction false} WalkKeepsSound(trail: seq<Snap>, target: Target, chunks: seq<Bytes>)
    requires Walked(trail, target, chunks) && chunks != []
    ensures Sound(trail[|trail| - 1], target, chunks)
    ensures trail[|trail| - 1].view.taken <==> Seized(trail, chunks)
  {
    var last := |trail| - 1;
    if last > 0 {
      var before := trail[..last];
      WalkKeepsSound(before, target, chunks);
      PassKeepsSound(trail[last - 1], trail[last], target, chunks);
      if n :| 0 < n < |trail| && Seizes(trail[n - 1], trail[n], chunks) {
        assert n < last ==> Seizes(before[n - 1], before[n], chunks);
      }
      if n :| 0 < n < |before| && Seizes(before[n - 1], before[n], chunks) {
        assert Seizes(trail[n - 1], trail[n], chunks);
      }
    }
  }

  /** An upload that succeeded has its own image, and so what the client sent,
      exactly when no attempt at its completion deleted the part file while
      another's file had the name. */
  lemma SuccessIsOursIff(trail: seq<Snap>, target: Target, chunks: seq<Bytes>)
    requires Walked(trail, target, chunks) && chunks != []
    requires trail[|trail| - 1].view.state == Succeeded
    ensures var v := trail[|trail| - 1].view;
            && (target == Volume || Own(v) <==> !Seized(trail, chunks))
            && (!Seized(trail, chunks) ==> Stored(v, target) == Some(Joined(chunks, |chunks|)))
  {
    WalkKeepsSound(trail, target, chunks);
  }

  /** A history in which it does not: the name is taken, the part file is
      deleted, the process dies before it ends the job, and the retry takes the
      other file for its own. */
  lemma ForeignImageSucceeds(all: Bytes, other: Bytes)
    requires all != other
    ensures var chunks, taken := [all], Some(Image(other, false));
            var start := Snap(View(Running, None, None, taken, false), 0);
            var written := start.(view := start.view.(part := Some(all)));
            var gone := Snap(View(Running, None, None, taken, true), 1);
            var trail := [start, written, written.(next := 1), gone,
                          gone.(view := View(Succeeded, Some(Completed), None, taken, true))];
            && Walked(trail, Local, chunks) && Seized(trail, chunks)
            && Stored(trail[4].view, Local) == Some(other)
  {
    var chunks, taken := [all], Some(Image(other, false));
    var start := Snap(View(Running, None, None, taken, false), 0);
    var written := start.(view := start.view.(part := Some(all)));
    var full := written.(next := 1);
    var gone := Snap(View(Running, None, None, taken, true), 1);
    var end := gone.(view := View(Succeeded, Some(Completed), None, taken, true));
    assert Joined(chunks, 0) == [];
    assert Joined(chunks, 1) == Joined(chunks, 0) + [all][0] == all;
    assert Writes(start, written, chunks) && Commits(written, full, chunks);
    assert gone == full.(view := Completion(full.view, Local, SMOOTH.(finish := DiesBefore)).0);
    assert end == gone.(view := Completion(gone.view, Local, SMOOTH).0);
    assert Completes(full, gone, Local, chunks) && Completes(gone, end, Local, chunks);
    var trail := [start, written, full, gone, end];
    assert Seizes(trail[2], trail[3], chunks);
  }

  // -- one more step ----------------------------------------------------------------

  lemma WalkGoesOn(trail: seq<Snap>, t: Snap, target: Target, chunks: seq<Bytes>)
    requires Walked(trail, target, chunks) && Passes(trail[|trail| - 1], t, target, chunks)
    ensures Walked(trail + [t], target, chunks)
  {
    var longer := trail + [t];
    forall n | 0 < n < |longer| ensures Passes(longer[n - 1], longer[n], target, chunks) {
      if n < |trail| { assert Passes(trail[n - 1], trail[n], target, chunks); }
    }
  }
}
