/** The data-image gate: attach or detach a DataImage before a provisioned host is powered on
    (handleDataImageActions in internal/controller/metal3.io/baremetalhost_controller.go). */
module DataImages {
  import opened HostTypes

  datatype DataImage = DataImage(url: string, deleting: bool, attachedURL: string, errorCount: nat)

  /** The DataImage object named after the host, if there is one, and what the BMC really has attached. */
  datatype World = World(image: Option<DataImage>, attached: bool)

  datatype MediaAnswer = Media(attached: bool) | MediaBusy | MediaError

  /** How the API server, Ironic and the BMC answer during one pass. */
  datatype Answers = Answers(readFails: bool, media: MediaAnswer, writeOk: bool, attachOk: bool, detachOk: bool)

  datatype Verdict = Pass | Requeue | Failure

  datatype Gated = Gated(world: World, verdict: Verdict)

  /** A status write: the object changes only if the write succeeds. */
  function Write(w: World, image: DataImage, a: Answers, verdict: Verdict): Gated {
    if a.writeOk then Gated(w.(image := Some(image)), verdict) else Gated(w, Failure)
  }

  function CountError(image: DataImage): DataImage {
    image.(errorCount := image.errorCount + 1)
  }

  function Detach(w: World, image: DataImage, a: Answers): Gated {
    if a.detachOk then Gated(w.(attached := false), Requeue)
    else Gated(Write(w, CountError(image), a, Failure).world, Failure)
  }

  function Attach(w: World, image: DataImage, a: Answers): Gated {
    if a.attachOk then Write(w.(attached := true), image.(attachedURL := image.url), a, Requeue)
    else Gated(Write(w, CountError(image), a, Failure).world, Failure)
  }

  function Gate(w: World, a: Answers): Gated {
    if a.readFails then Gated(w, Failure)
    else if w.image.None? then Gated(w, Pass)
    else
      var image := w.image.value;
      match a.media
      case MediaBusy => Gated(w, Requeue)
      case MediaError => Write(w, CountError(image), a, Requeue)
      case Media(attached) =>
        if !attached && image.attachedURL != "" then Write(w, image.(attachedURL := ""), a, Requeue)
        else if image.deleting then
          if attached then Detach(w, image, a) else Gated(w, Pass)
        else if image.url != image.attachedURL && image.attachedURL != "" then Detach(w, image, a)
        else if image.url != image.attachedURL then Attach(w, image, a)
        else Write(w, image.(errorCount := 0), a, Pass)
  }

  /** The source's procedure, on the DataImage object it loads, changes and writes back. */
  class DataImageHandler {
    const answers: Answers
    var world: World

    constructor (world: World, answers: Answers)
      ensures this.world == world && this.answers == answers
    {
      this.world, this.answers := world, answers;
    }

    method UpdateStatus(image: DataImage) returns (ok: bool)
      modifies this
      ensures ok == answers.writeOk
      ensures world == if ok then old(world).(image := Some(image)) else old(world)
    {
      ok := answers.writeOk;
      if ok {
        world := world.(image := Some(image));
      }
    }

    method AttachDataImage(image: DataImage) returns (ok: bool)
      modifies this
      ensures Gated(world, if ok then Requeue else Failure) == Attach(old(world), image, answers)
    {
      if !answers.attachOk {
        var _ := UpdateStatus(image.(errorCount := image.errorCount + 1));
        return false;
      }
      world := world.(attached := true);
      ok := UpdateStatus(image.(attachedURL := image.url));
    }

    method DetachDataImage(image: DataImage) returns (ok: bool)
      modifies this
      ensures Gated(world, if ok then Requeue else Failure) == Detach(old(world), image, answers)
    {
      if !answers.detachOk {
        var _ := UpdateStatus(image.(errorCount := image.errorCount + 1));
        return false;
      }
      world := world.(attached := false);
      ok := true;
    }

    method HandleDataImageActions() returns (verdict: Verdict)
      modifies this
      ensures Gated(world, verdict) == Gate(old(world), answers)
    {
      if answers.readFails {
        return Failure;
      }
      if world.image == None {
        return Pass;
      }
      var image := world.image.value;
      if answers.media != MediaBusy && !answers.media.Media? {
        var written := UpdateStatus(image.(errorCount := image.errorCount + 1));
        return if written then Requeue else Failure;
      }
      if answers.media == MediaBusy {
        return Requeue;
      }
      var isImageAttached := answers.media.attached;
      var ok: bool;
      if !isImageAttached && image.attachedURL != "" {
        ok := UpdateStatus(image.(attachedURL := ""));
        return if ok then Requeue else Failure;
      }
      if image.deleting {
        if isImageAttached {
          ok := DetachDataImage(image);
          return if ok then Requeue else Failure;
        }
        return Pass;
      }
      if image.url != image.attachedURL {
        if image.attachedURL != "" {
          ok := DetachDataImage(image);
          return if ok then Requeue else Failure;
        }
        if image.url != "" {
          ok := AttachDataImage(image);
          return if ok then Requeue else Failure;
        }
      }
      ok := UpdateStatus(image.(errorCount := 0));
      return if ok then Pass else Failure;
    }
  }

  // ----- what the gate guarantees -----

  /** No data image; or one going away that is not attached; or the recorded URL is the requested one, and
      something is attached if that URL is not empty. */
  predicate Settled(w: World, attached: bool) {
    || w.image.None?
    || (w.image.value.deleting && !attached && w.image.value.attachedURL == "")
    || (!w.image.value.deleting && w.image.value.url == w.image.value.attachedURL
        && (w.image.value.url != "" ==> attached))
  }

  /** The gate opens only on a settled data image, whatever fails; and on every settled one if nothing fails. */
  lemma PassMeansSettled(w: World, a: Answers)
    ensures Gate(w, a).verdict == Pass ==>
              !a.readFails && (w.image.None? || (a.media.Media? && Settled(w, a.media.attached)))
    ensures !a.readFails && a.writeOk && (w.image.None? || (a.media.Media? && Settled(w, a.media.attached))) ==>
              Gate(w, a).verdict == Pass
  {
  }

  /** A call to the BMC that fails counts one more error, if that can be written; passing the gate with an image to
      attach forgets them all; and nothing else changes the count. */
  lemma ErrorsAreCounted(w: World, a: Answers)
    requires w.image.Some? && !a.readFails
    ensures a.media.MediaBusy? ==> Gate(w, a) == Gated(w, Requeue)
    ensures var (before, after, failed) := (w.image.value, Gate(w, a).world.image, Gate(w, a).verdict == Failure);
            && after.Some?
            && (if !a.writeOk then after.value.errorCount == before.errorCount
                else if a.media.MediaError? || (a.media.Media? && failed) then
                  after.value.errorCount == before.errorCount + 1
                else if Gate(w, a).verdict == Pass && !before.deleting then after.value.errorCount == 0
                else after.value.errorCount == before.errorCount)
  {
  }

  /** Every call succeeds and the BMC reports the last attach or detach. */
  function Truthful(w: World): Answers {
    Answers(false, Media(w.attached), true, true, true)
  }

  /** The number of requeues that separate a data image from its settled state. */
  function Distance(w: World): nat {
    if w.image.None? then 0
    else
      var image := w.image.value;
      var clear: nat := if image.attachedURL != "" then 1 else 0;
      var attach: nat := if image.url != "" then 1 else 0;
      if image.deleting then (if w.attached then 1 else 0) + clear
      else if !w.attached then clear + attach
      else if image.url == image.attachedURL then 0
      else if image.attachedURL != "" then 2 + attach
      else 1
  }

  /** The world after n passes with every call successful. */
  function After(w: World, n: nat): World
    decreases n
  {
    if n == 0 then w else After(Gate(w, Truthful(w)).world, n - 1)
  }

  /** With a fixed request, exactly Distance(w) <= 3 requeues happen before the gate opens. */
  lemma {:induction false} GateConverges(w: World)
    ensures Distance(w) <= 3
    ensures forall k: nat | k < Distance(w) :: Gate(After(w, k), Truthful(After(w, k))).verdict == Requeue
    ensures var last := After(w, Distance(w));
            Gate(last, Truthful(last)).verdict == Pass && Settled(last, last.attached)
    decreases Distance(w)
  {
    var next := Gate(w, Truthful(w));
    if Distance(w) != 0 {
      assert next.verdict == Requeue && Distance(next.world) == Distance(w) - 1;
      GateConverges(next.world);
      forall k: nat | k < Distance(w)
        ensures Gate(After(w, k), Truthful(After(w, k))).verdict == Requeue
      {
        if k > 0 {
          assert After(w, k) == After(next.world, k - 1);
        }
      }
    }
  }
}
