/** What an upload writes to, and its completion: the targets, finalization and
    _complete of storages/upload.py, with every way each step may end. */
module UploadTargets {
  import opened Wrappers
  import opened Records
  import opened Faults

  newtype Byte = b: int | 0 <= b < 256

  type Bytes = seq<Byte>

  /** A socket pool's file, an SSH pool's file, a TCP or TLS pool's volume. */
  datatype Target = Local | Ssh | Volume

  /** The file with the image's name; ours: it is the upload's part file. */
  datatype Image = Image(bytes: Bytes, ours: bool)

  datatype Ending = Completed | NameTaken | ImageMissing | PartMissing | ComputeGone | Idle | Stopped

  /** The job's state and why it ended, the part file (of a volume target: the
      volume), and the image. taken: the part file was deleted while another's
      file had the image's name. */
  datatype View = View(state: State, why: Option<Ending>, part: Option<Bytes>, image: Option<Image>, taken: bool)

  /** The image is the upload's own; another's file has its name. */
  predicate Own(v: View) { v.image.Some? && v.image.value.ours }

  predicate Foreign(v: View) { v.image.Some? && !v.image.value.ours }

  /** A request's answer; Died: its process ended. */
  datatype Reply = Accepted | Refused | Raised | Died

  // -- finalization -------------------------------------------------------------

  datatype Finalizing = Placed | Exists | Trouble | Dead

  /** link, renameat2 and unlink; of an SSH pool, rename and the two lstats. */
  datatype FinalFates = FinalFates(link: Fate, rename: Fate, unlink: Fate, lstat: Fate)

  function Placing(v: View): View
    requires v.part.Some?
  {
    v.(image := Some(Image(v.part.value, true)))
  }

  /** The unlink of the part file; its failure is ignored. */
  function Unlinked(v: View, f: Fate): (View, Finalizing) {
    (if Effective(f) then v.(part := None) else v, if Dies(f) then Dead else Placed)
  }

  /** _atomic_finalize_local: link, or renameat2 where links fail; neither replaces a file. */
  function FinalizedLocal(v: View, f: FinalFates): (View, Finalizing)
    requires v.part.Some?
  {
    if v.image.Some? && !Dies(f.link) then
      if f.link.Works? then if v.image.value.ours then Unlinked(v, f.unlink) else (v, Exists)
      // another error of link: renameat2 finds the name taken, or fails
      else if Dies(f.rename) then (v, Dead)
      else if f.rename.Works? then (v, Exists) else (v, Trouble)
    else if v.image.None? && f.link.Works? then Unlinked(Placing(v), f.unlink)
    else if Dies(f.link) then (if f.link.DiesAfter? && v.image.None? then Placing(v) else v, Dead)
    else if f.link.FailsAfter? then
      // the link is there, but its error is not "exists"
      (Placing(v), if Dies(f.rename) then Dead else if f.rename.Works? then Exists else Trouble)
    else if f.rename.Works? then (Placing(v).(part := None), Placed)
    else (if Effective(f.rename) then Placing(v).(part := None) else v, if Dies(f.rename) then Dead else Trouble)
  }

  /** _atomic_finalize_ssh: a rename that refuses a taken name; after an error
      the two names tell whether it was done. */
  function FinalizedSsh(v: View, f: FinalFates): (View, Finalizing)
    requires v.part.Some?
  {
    var done := v.image.None? && Effective(f.rename);
    var v' := if done then Placing(v).(part := None) else v;
    if Dies(f.rename) then (v', Dead)
    else if done && f.rename.Works? then (v', Placed)
    else if Dies(f.lstat) then (v', Dead)
    else if Fails(f.lstat) || v'.image.None? then (v', Trouble)
    else if done then (v', Placed) else (v', Exists)
  }

  function Finalized(v: View, target: Target, f: FinalFates): (View, Finalizing)
    requires v.part.Some?
  {
    match target
    case Local => FinalizedLocal(v, f)
    case Ssh => FinalizedSsh(v, f)
    case Volume => (v, Placed)
  }

  /** However it ends, finalization replaces no other file, and places nothing
      but the part file's bytes; done, they are in place. */
  lemma FinalizationNeverReplaces(v: View, target: Target, f: FinalFates)
    requires v.part.Some?
    ensures var (v', end) := Finalized(v, target, f);
            && (v.image.Some? ==> v'.image == v.image)
            && (v'.image.Some? && v.image.None? ==> v'.image == Some(Image(v.part.value, true)))
            && (v'.part.None? ==> v'.image.Some? && v'.image.value.ours)
            && (v'.part.Some? ==> v'.part == v.part)
            && (end == Placed && target != Volume ==> v'.image.Some? && v'.image.value.ours)
            && v' == v.(part := v'.part, image := v'.image)
  {
  }

  /** A local finalization call by call: a hard link, which leaves the part file
      to be unlinked; where links fail, a rename that refuses a taken name. */
  lemma LocalCallByCall(v: View, f: FinalFates)
    requires v.part.Some?
    ensures var (v', end) := FinalizedLocal(v, f);
            && (f.link.Works? ==>
                  if Foreign(v) then end == Exists && v' == v
                  else && Own(v') && (v'.part.None? <==> f.unlink.Works? || f.unlink.FailsAfter? || f.unlink.DiesAfter?)
                       && (end == if f.unlink.DiesBefore? || f.unlink.DiesAfter? then Dead else Placed))
            && (f.link.DiesBefore? || f.link.DiesAfter? ==>
                  && end == Dead && v'.part == v.part
                  && (Own(v') <==> Own(v) || (v.image.None? && f.link.DiesAfter?)))
            // the link's error may hide that it was made
            && (f.link.FailsBefore? || f.link.FailsAfter? ==>
                  var free := v.image.None? && f.link.FailsBefore?;
                  && (f.rename.DiesBefore? || f.rename.DiesAfter? ==> end == Dead)
                  && (f.rename.FailsBefore? || f.rename.FailsAfter? ==> end == Trouble)
                  && (f.rename.Works? ==> end == if free then Placed else Exists)
                  && (v'.part.None? <==> free && !f.rename.FailsBefore? && !f.rename.DiesBefore?))
  {
  }

  /** An SSH finalization: a rename that refuses a taken name, and after an
      error a look at both names, which tells whether it was done. */
  lemma SshCallByCall(v: View, f: FinalFates)
    requires v.part.Some?
    ensures var (v', end) := FinalizedSsh(v, f);
            var done := v.image.None? && !f.rename.FailsBefore? && !f.rename.DiesBefore?;
            var unsure := v.image.Some? || f.rename.FailsBefore? || f.rename.FailsAfter?;
            && (v'.part.None? <==> done) && (done ==> Own(v')) && (!done ==> v' == v)
            && (f.rename.DiesBefore? || f.rename.DiesAfter? ==> end == Dead)
            && (f.rename.Works? && v.image.None? ==> end == Placed)
            && (!f.rename.DiesBefore? && !f.rename.DiesAfter? && unsure ==>
                  && (f.lstat.DiesBefore? || f.lstat.DiesAfter? ==> end == Dead)
                  && (f.lstat.FailsBefore? || f.lstat.FailsAfter? ==> end == Trouble)
                  && (f.lstat.Works? ==> end == if done then Placed else if v.image.Some? then Exists else Trouble))
  {
  }

  /** Killed at any point, an attempt may be repeated: where no one else took
      the name, the attempts leave the bytes of the first. */
  lemma FinalizationMayBeRepeated(v: View, target: Target, f: FinalFates, g: FinalFates)
    requires v.part.Some? && v.image.None? && target != Volume
    requires Finalized(v, target, f).1 == Dead
    ensures var v1 := Finalized(v, target, f).0;
            v1.part.Some? ==>
              var (v2, end) := Finalized(v1, target, g);
              && (v2.image.Some? ==> v2.image == Some(Image(v.part.value, true)))
              && (g == FinalFates(Works, Works, Works, Works) ==>
                    end == Placed && v2.image == Some(Image(v.part.value, true)))
    ensures var v1 := Finalized(v, target, f).0;
            v1.part.None? ==> v1.image == Some(Image(v.part.value, true))
  {
  }

  // -- completion -----------------------------------------------------------------

  /** jobs.finish of an active upload. */
  function Concluded(v: View, state: State, why: Ending, f: Fate): View {
    if Effective(f) then v.(state := state, why := Some(why)) else v
  }

  function After(f: Fate, reply: Reply): Reply {
    if Dies(f) then Died else if Fails(f) then Raised else reply
  }

  /** What the target's present() says: Works, FailsBefore or DiesBefore. */
  datatype Fates = Fates(look: Fate, final: FinalFates, remove: Fate, finish: Fate)

  const SMOOTH := Fates(Works, FinalFates(Works, Works, Works, Works), Works, Works)

  /** target.remove() of a part file that is there. */
  function Removed(v: View, f: Fate): View {
    if Effective(f) then v.(part := None) else v
  }

  /** The part file goes, as its name is taken. */
  function GivenUp(v: View, f: Fate): View {
    if Effective(f) then v.(part := None, taken := v.taken || Foreign(v)) else v
  }

  /** _complete: the part file becomes the image, or an image in its place is
      taken for it; the upload fails when neither is there, or another's file is. */
  function Completion(v: View, target: Target, f: Fates): (View, Reply) {
    if !f.look.Works? then (v, if Dies(f.look) then Died else Raised)
    else if v.part.None? then
      if target == Volume || v.image.None? then (Concluded(v, Failed, ImageMissing, f.finish), After(f.finish, Refused))
      else (Concluded(v, Succeeded, Completed, f.finish), After(f.finish, Accepted))
    else
      var (v1, end) := Finalized(v, target, f.final);
      match end
      case Dead => (v1, Died)
      case Trouble => (v1, Raised)
      case Placed => (Concluded(v1, Succeeded, Completed, f.finish), After(f.finish, Accepted))
      case Exists =>
        var v2 := GivenUp(v1, f.remove);
        if !f.remove.Works? then (v2, if Dies(f.remove) then Died else Raised)
        else (Concluded(v2, Failed, NameTaken, f.finish), After(f.finish, Refused))
  }

  /** The image the pool has once the upload succeeded. */
  function Stored(v: View, target: Target): Option<Bytes> {
    if target == Volume then v.part else if v.image.Some? then Some(v.image.value.bytes) else None
  }

  /** With no failure: the part file becomes the image of a free name, and goes
      where the name is another's; without one the image there counts as done. */
  lemma CompletionUndisturbed(v: View, target: Target)
    requires target == Volume ==> v.image.None?
    ensures var (v', reply) := Completion(v, target, SMOOTH);
            && (v.part.Some? && v.image.None? ==>
                  && reply == Accepted && v'.state == Succeeded && v'.why == Some(Completed)
                  && Stored(v', target) == v.part && (target == Volume || (Own(v') && v'.part.None?)))
            && (v.part.Some? && Foreign(v) ==>
                  && reply == Refused && v'.state == Failed && v'.why == Some(NameTaken)
                  && v'.part.None? && v'.image == v.image)
            && (v.part.None? && v.image.Some? ==>
                  && reply == Accepted && v' == v.(state := Succeeded, why := Some(Completed)))
            && (v.part.None? && v.image.None? ==>
                  && reply == Refused && v' == v.(state := Failed, why := Some(ImageMissing)))
  {
  }

  /** A step that raises or dies is the completion's answer, and the job goes on. */
  lemma CompletionBreaks(v: View, target: Target, f: Fates)
    ensures var (v', reply) := Completion(v, target, f);
            && (f.look.FailsBefore? || f.look.FailsAfter? ==> reply == Raised && v' == v)
            && (f.look.DiesBefore? || f.look.DiesAfter? ==> reply == Died && v' == v)
            && (f.look.Works? && v.part.Some? ==>
                  var (v1, end) := Finalized(v, target, f.final);
                  && (end == Trouble ==> reply == Raised && v' == v1)
                  && (end == Dead ==> reply == Died && v' == v1)
                  && (end == Exists && (f.remove.FailsBefore? || f.remove.FailsAfter?) ==>
                        reply == Raised && v'.state == v.state)
                  && (end == Exists && (f.remove.DiesBefore? || f.remove.DiesAfter?) ==>
                        reply == Died && v'.state == v.state)
                  && (end == Placed && f.finish.Works? ==> reply == Accepted && v'.state == Succeeded)
                  && (end == Exists && f.remove.Works? && f.finish.Works? ==> reply == Refused && v'.state == Failed)
                  && (end == Placed || (end == Exists && f.remove.Works?) ==> Closing(v1, v', reply, f.finish)))
            && (f.look.Works? && v.part.None? ==> Closing(v, v', reply, f.finish))
  {
  }

  /** The end of the job, when it raises or is the process's last step. */
  predicate Closing(v: View, v': View, reply: Reply, finish: Fate) {
    && (finish.FailsBefore? || finish.FailsAfter? ==> reply == Raised)
    && (finish.DiesBefore? || finish.DiesAfter? ==> reply == Died)
    && (finish.FailsBefore? || finish.DiesBefore? ==> v'.state == v.state && v'.why == v.why)
  }

  /** The part file is deleted for its name exactly when finalization ends at
      another's image and the removal takes effect. */
  lemma DeletedForItsNameIff(v: View, target: Target, f: Fates)
    ensures var v' := Completion(v, target, f).0;
            && (v.part.None? ==> v'.part.None? && v'.taken == v.taken && v'.image == v.image)
            && (v.part.Some? ==>
                  var (v1, end) := Finalized(v, target, f.final);
                  v'.taken <==> v.taken || (f.look.Works? && end == Exists && Foreign(v1) && Effective(f.remove)))
            // which is seen from outside: the file is gone, and the image is another's
            && (v.part.Some? && !v.taken ==> (v'.taken <==> v'.part.None? && Foreign(v')))
            && (v.part.Some? && v'.part.None? && !v'.taken ==> Own(v'))
  {
    if v.part.Some? { FinalizationNeverReplaces(v, target, f.final); }
  }

  /** It does fail: the name is taken, the part file is deleted, the process
      dies before it ends the job; the retry takes the other file for its own. */
  lemma RetryTakesForeignImage(all: Bytes, other: Bytes)
    requires all != other
    ensures var v := View(Running, None, Some(all), Some(Image(other, false)), false);
            var (v1, r1) := Completion(v, Local, SMOOTH.(finish := DiesBefore));
            var (v2, r2) := Completion(v1, Local, SMOOTH);
            && r1 == Died && v1.state == Running && v1.taken
            && r2 == Accepted && v2.state == Succeeded && Stored(v2, Local) == Some(other)
  {
  }
}
