/** The build cache of pre-provisioning images (internal/controller/metal3.io/preprovisioningimage_controller.go). */
module PreprovisioningImages {
  import opened HostTypes

  datatype SecretStatus = SecretStatus(name: string, version: string)

  const NO_SECRET := SecretStatus("", "")

  /** What identifies a build in the cache. */
  datatype Key = Key(format: string, architecture: string, networkData: SecretStatus)

  datatype Reason = ImageSuccess | ConfigurationError | MissingNetworkData | ImageBuildInvalid

  /** A status condition, but for the time of its last transition, which says nothing more. */
  datatype Condition = Condition(set_: bool, generation: nat, reason: Reason, message: string)

  datatype GeneratedImage = GeneratedImage(imageURL: string, kernelURL: string, extraKernelParams: string)

  const NO_IMAGE := GeneratedImage("", "", "")

  datatype ImageStatus = ImageStatus(image: GeneratedImage, key: Key, ready: Option<Condition>,
                                     error: Option<Condition>)

  const NEW := ImageStatus(NO_IMAGE, Key("", "", NO_SECRET), None, None)

  predicate IsReady(s: ImageStatus) {
    s.ready.Some? && s.ready.value.set_
  }

  datatype SecretAnswer = SecretFound(version: string) | SecretNotFound | SecretError

  /** How the image provider answers a build. Even a failed build may leave something in its cache. */
  datatype BuildAnswer =
    | Built(image: GeneratedImage)
    | NotReady(message: string, leaves: bool)
    | Invalid(message: string, leaves: bool)
    | BuildError(leaves: bool)

  /** A failed discard may have removed the image all the same. */
  datatype DiscardAnswer = Discarded | DiscardError(gone: bool)

  datatype ImageSpec = ImageSpec(architecture: string, acceptFormats: seq<string>, networkDataName: string)

  /** What one reconcile reads and how its calls are answered. */
  datatype Env = Env(
    deleting: bool,
    generation: nat,
    spec: ImageSpec,
    supportsArchitecture: bool,
    formats: set<string>,
    secret: SecretAnswer,
    build: BuildAnswer,
    discard: DiscardAnswer,
    objectWritten: bool,
    statusWritten: bool)

  /** The object on the API server and the images that were built and not discarded. */
  datatype World = World(status: ImageStatus, finalizer: bool, built: set<Key>)

  const FRESH_WORLD := World(NEW, false, {})

  // ----- the steps -----

  function SetImage(s: ImageStatus, generation: nat, image: GeneratedImage, key: Key, message: string): ImageStatus {
    ImageStatus(image, key, Some(Condition(image.imageURL != "", generation, ImageSuccess, message)),
                Some(Condition(false, generation, ImageSuccess, "")))
  }

  function SetUnready(s: ImageStatus, generation: nat, message: string): ImageStatus {
    s.(ready := Some(Condition(false, generation, ImageSuccess, message)))
  }

  function SetError(s: ImageStatus, generation: nat, reason: Reason, message: string): ImageStatus {
    s.(image := s.image.(imageURL := ""),
       ready := Some(Condition(false, generation, reason, "")),
       error := Some(Condition(true, generation, reason, message)))
  }

  /** discardExistingImage: there is none before the first build is planned. */
  function Discard(s: ImageStatus, built: set<Key>, answer: DiscardAnswer): set<Key> {
    if s.key.format == "" || (answer.DiscardError? && !answer.gone) then built else built - {s.key}
  }

  predicate DiscardFails(s: ImageStatus, answer: DiscardAnswer) {
    s.key.format != "" && answer.DiscardError?
  }

  /** getImageFormat: the first acceptable format that is supported; none is the empty string. */
  function Format(accepted: seq<string>, supported: set<string>): string {
    if accepted == [] then "" else if accepted[0] in supported then accepted[0] else Format(accepted[1..], supported)
  }

  /** getNetworkData */
  function SecretStatusOf(env: Env): SecretStatus {
    if env.spec.networkDataName != "" && env.secret.SecretFound? then
      SecretStatus(env.spec.networkDataName, env.secret.version)
    else NO_SECRET
  }

  function WantedKey(env: Env): Key {
    Key(Format(env.spec.acceptFormats, env.formats), env.spec.architecture, SecretStatusOf(env))
  }

  function AfterBuild(key: Key, built: set<Key>, answer: BuildAnswer): set<Key> {
    if answer.Built? || answer.leaves then built + {key} else built
  }

  datatype Failure = NoFailure | SecretMissing | ImageNotReady(message: string) | OtherFailure

  datatype Updated = Updated(status: ImageStatus, built: set<Key>, changed: bool, failure: Failure)

  /** update */
  function Update(s: ImageStatus, built: set<Key>, env: Env): Updated {
    var g := env.generation;
    if !env.supportsArchitecture then
      Updated(SetError(s, g, ConfigurationError, "Architecture not supported"), built, true, NoFailure)
    else if Format(env.spec.acceptFormats, env.formats) == "" then
      Updated(SetError(s, g, ConfigurationError, "No acceptable image format supported"), built, true, NoFailure)
    else if env.spec.networkDataName != "" && env.secret.SecretNotFound? then
      Updated(SetError(s, g, MissingNetworkData, "NetworkData secret not found"), built, true, SecretMissing)
    else if env.spec.networkDataName != "" && env.secret.SecretError? then Updated(s, built, false, OtherFailure)
    else if s.key != WantedKey(env) then Reconfigure(s, built, env)
    else Build(s, built, env)
  }

  /** The configuration has changed: the image stops being ready before it is discarded, and its successor is planned
      in the status before it is built. */
  function Reconfigure(s: ImageStatus, built: set<Key>, env: Env): Updated {
    if IsReady(s) then Updated(SetUnready(s, env.generation, "Config changed"), built, true, NoFailure)
    else if DiscardFails(s, env.discard) then Updated(s, Discard(s, built, env.discard), false, OtherFailure)
    else
      Updated(SetImage(s, env.generation, NO_IMAGE, WantedKey(env), "Config changed"), Discard(s, built, env.discard),
        true, NoFailure)
  }

  function Build(s: ImageStatus, built: set<Key>, env: Env): Updated {
    var after := AfterBuild(WantedKey(env), built, env.build);
    match env.build
    case Built(image) =>
      var next := SetImage(s, env.generation, image, WantedKey(env), "Generated image");
      Updated(next, after, next != s, NoFailure)
    case Invalid(message, _) => Updated(SetError(s, env.generation, ImageBuildInvalid, message), after, true, NoFailure)
    case NotReady(message, _) => Updated(s, after, false, ImageNotReady(message))
    case BuildError(_) => Updated(s, after, false, OtherFailure)
  }

  /** What a reconcile leaves behind, and whether it reports an error. */
  datatype Reconciled = Reconciled(world: World, error: bool)

  function Reconcile(w: World, env: Env): Reconciled {
    if env.deleting then
      var built := Discard(w.status, w.built, env.discard);
      if DiscardFails(w.status, env.discard) then Reconciled(w.(built := built), true)
      else if w.finalizer && !env.objectWritten then Reconciled(w.(built := built), true)
      else Reconciled(w.(finalizer := false, built := built), false)
    else if !w.finalizer then
      Reconciled(w.(finalizer := env.objectWritten), !env.objectWritten)
    else
      var u := Update(w.status, w.built, env);
      var status := if u.failure.ImageNotReady? then SetUnready(u.status, env.generation, u.failure.message)
        else u.status;
      if u.changed || u.failure.ImageNotReady? then
        Reconciled(World(if env.statusWritten then status else w.status, true, u.built), !env.statusWritten)
      else Reconciled(w.(built := u.built), u.failure != NoFailure)
  }

  // ----- the cache never leaks -----

  /** At most the image of the recorded key is built, none before the finalizer protects it, and an image that is
      reported ready has not been discarded. */
  predicate CacheInv(w: World, deleting: bool) {
    && (forall key | key in w.built :: key == w.status.key && key.format != "")
    && (!w.finalizer ==> w.built == {})
    && (!deleting && IsReady(w.status) ==> w.status.key in w.built)
  }

  lemma UpdateKeepsCache(w: World, env: Env)
    requires CacheInv(w, false) && w.finalizer
    ensures var u := Update(w.status, w.built, env);
            && CacheInv(World(u.status, true, u.built), false)
            && CacheInv(World(w.status, true, u.built), false)
            && (u.failure.ImageNotReady? ==> u.status == w.status)
  {
    hide Format;
  }

  /** Every reconcile keeps the cache in order, whatever the spec and the secret have become, whichever builds and
      discards fail and whichever writes are lost. */
  lemma ReconcileKeepsCache(w: World, env: Env)
    requires CacheInv(w, env.deleting)
    ensures CacheInv(Reconcile(w, env).world, env.deleting)
  {
    hide Update;
    if !env.deleting && w.finalizer {
      UpdateKeepsCache(w, env);
    }
  }

  /** A deletion ends in the first round in which the discard and the write succeed, with nothing left in the cache;
      until then the finalizer stays and the round is repeated. */
  lemma DeletionEnds(w: World, env: Env)
    requires CacheInv(w, true) && env.deleting && w.finalizer
    ensures var (r, discarded) := (Reconcile(w, env), env.discard.Discarded? || w.status.key.format == "");
            if discarded && env.objectWritten then r == Reconciled(World(w.status, false, {}), false)
            else r.error && r.world.finalizer && r.world.status == w.status
  {
  }

  // ----- over whole runs -----

  function Run(w: World, envs: seq<Env>): World {
    if envs == [] then w else Reconcile(Run(w, envs[..|envs| - 1]), envs[|envs| - 1]).world
  }

  /** A deletion request is never withdrawn. */
  ghost predicate DeletionLasts(envs: seq<Env>) {
    forall i, j | 0 <= i < j < |envs| :: envs[i].deleting ==> envs[j].deleting
  }

  predicate Deleting(envs: seq<Env>) {
    envs != [] && envs[|envs| - 1].deleting
  }

  /** In every run of a new object: whatever is in the cache is the image of the recorded key, so that it can still be
      discarded; a ready image has not been discarded; and once the finalizer is gone nothing is left. */
  lemma {:induction false} CacheNeverLeaks(envs: seq<Env>)
    requires DeletionLasts(envs)
    ensures CacheInv(Run(FRESH_WORLD, envs), Deleting(envs))
  {
    hide Reconcile;
    if envs != [] {
      var (before, env) := (envs[..|envs| - 1], envs[|envs| - 1]);
      assert forall i | 0 <= i < |before| :: before[i] == envs[i];
      CacheNeverLeaks(before);
      assert Deleting(before) ==> env.deleting;
      ReconcileKeepsCache(Run(FRESH_WORLD, before), env);
    }
  }

  // ----- convergence -----

  /** The configuration is supported and every call succeeds. */
  predicate Smooth(env: Env) {
    && !env.deleting && env.supportsArchitecture && Format(env.spec.acceptFormats, env.formats) != ""
    && (env.spec.networkDataName != "" ==> env.secret.SecretFound?)
    && env.build.Built? && env.build.image.imageURL != "" && env.discard.Discarded?
    && env.objectWritten && env.statusWritten
  }

  /** The image that was asked for is built, recorded and ready. */
  function Final(env: Env): World
    requires env.build.Built?
  {
    World(SetImage(NEW, env.generation, env.build.image, WantedKey(env), "Generated image"), true, {WantedKey(env)})
  }

  function Times(w: World, env: Env, n: nat): World {
    if n == 0 then w else Reconcile(Times(w, env, n - 1), env).world
  }

  lemma SmoothStep(w: World, env: Env)
    requires CacheInv(w, false) && w.finalizer && Smooth(env)
    ensures var next := Reconcile(w, env).world;
            && next.finalizer
            && (if w.status.key == WantedKey(env) then next == Final(env)
                else if IsReady(w.status) then next.status.key == w.status.key && !IsReady(next.status)
                else next.status.key == WantedKey(env))
  {
    hide Format;
  }

  /** From any state that a run can leave, at most three reconciles with a configuration that stays the same reach the
      image asked for, and then nothing changes any more. */
  lemma {:induction false} Converges(w: World, env: Env)
    requires CacheInv(w, false) && w.finalizer && Smooth(env)
    ensures Times(w, env, 3) == Final(env) && Reconcile(Final(env), env).world == Final(env)
    ensures Describes(Final(env).status.key, env)
  {
    hide Reconcile, Smooth, Final, WantedKey, Describes;
    FinalIsDescribed(env);
    var (one, two) := (Times(w, env, 1), Times(w, env, 2));
    assert one == Reconcile(Times(w, env, 0), env).world && two == Reconcile(one, env).world;
    assert CacheInv(w, env.deleting) && !env.deleting by { SmoothIsNotDeleting(env); }
    SmoothStep(w, env);
    ReconcileKeepsCache(w, env);
    SmoothStep(one, env);
    ReconcileKeepsCache(one, env);
    SmoothStep(two, env);
    FinalIsFinal(env);
  }

  lemma SmoothIsNotDeleting(env: Env)
    requires Smooth(env)
    ensures !env.deleting
  {
  }

  lemma FinalIsDescribed(env: Env)
    requires Smooth(env)
    ensures Describes(Final(env).status.key, env)
  {
    hide Format, Describes;
    WantedKeyDescribes(WantedKey(env), env);
  }

  lemma FinalIsFinal(env: Env)
    requires Smooth(env)
    ensures Final(env).finalizer && Final(env).status.key == WantedKey(env) && CacheInv(Final(env), false)
    ensures Reconcile(Final(env), env).world == Final(env)
  {
    hide Format;
  }

  // ----- what the recorded key says -----

  /** The key holds the first acceptable format that is supported, the architecture, and the name and the version of the
      secret with the network data, or neither of them without one. */
  predicate Describes(key: Key, env: Env) {
    && (exists i | 0 <= i < |env.spec.acceptFormats| ::
          && env.spec.acceptFormats[i] == key.format && key.format in env.formats
          && forall j | 0 <= j < i :: env.spec.acceptFormats[j] !in env.formats)
    && key.format != "" && key.architecture == env.spec.architecture
    && (if env.spec.networkDataName == "" then key.networkData.name == "" && key.networkData.version == ""
        else
          && env.secret.SecretFound? && key.networkData.name == env.spec.networkDataName
          && key.networkData.version == env.secret.version)
  }

  lemma {:induction false} FormatIsFirst(accepted: seq<string>, supported: set<string>, format: string)
    requires format != ""
    ensures Format(accepted, supported) == format <==>
            exists i | 0 <= i < |accepted| ::
              && accepted[i] == format && format in supported && forall j | 0 <= j < i :: accepted[j] !in supported
  {
    if accepted != [] && accepted[0] !in supported {
      FormatIsFirst(accepted[1..], supported, format);
      if i :| 0 <= i < |accepted[1..]| && accepted[1..][i] == format && format in supported
              && forall j | 0 <= j < i :: accepted[1..][j] !in supported {
        assert accepted[i + 1] == format;
        assert forall j | 0 < j < i + 1 :: accepted[j] == accepted[1..][j - 1];
      }
      if i :| 0 <= i < |accepted| && accepted[i] == format && format in supported
              && forall j | 0 <= j < i :: accepted[j] !in supported {
        assert accepted[1..][i - 1] == format;
        assert forall j | 0 <= j < i - 1 :: accepted[1..][j] == accepted[j + 1];
      }
    }
  }

  /** The configuration can be read: the format is supported and the secret was found, if there is to be one. */
  predicate Readable(env: Env) {
    && Format(env.spec.acceptFormats, env.formats) != ""
    && (env.spec.networkDataName != "" ==> env.secret.SecretFound?)
  }

  lemma WantedKeyDescribes(key: Key, env: Env)
    ensures Describes(key, env) <==> Readable(env) && key == WantedKey(env)
  {
    hide Format;
    if key.format != "" {
      FormatIsFirst(env.spec.acceptFormats, env.formats, key.format);
    }
  }

  /** A round without an error that leaves a ready image has recorded, or found on record, exactly what describes it. */
  lemma ReadyMeansDescribed(w: World, env: Env)
    requires CacheInv(w, false) && w.finalizer && !env.deleting
    requires !Reconcile(w, env).error && IsReady(Reconcile(w, env).world.status)
    ensures Describes(Reconcile(w, env).world.status.key, env)
  {
    hide Format, Describes;
    WantedKeyDescribes(Reconcile(w, env).world.status.key, env);
  }

  /** What a round says of the image that is asked for, once its status is written: a configuration that cannot be built
      and a build that is refused are errors, a build under way is none, and a build that is done clears them; what only
      went wrong on the way is reported and changes nothing. */
  lemma OutcomeIsShown(w: World, env: Env)
    requires w.finalizer && !env.deleting && env.statusWritten
    ensures var (before, after, g) := (w.status, Reconcile(w, env).world.status, env.generation);
            var known := env.supportsArchitecture && Format(env.spec.acceptFormats, env.formats) != "";
            var named := env.spec.networkDataName != "";
            && (!known || (named && env.secret.SecretNotFound?) ==>
                  && !IsReady(after) && after.image.imageURL == "" && after.error.Some? && after.error.value.set_
                  && after.error.value.generation == g
                  && after.error.value.reason == if known then MissingNetworkData else ConfigurationError)
            && (known && named && env.secret.SecretError? ==> after == before && Reconcile(w, env).error)
            && (known && Describes(before.key, env) ==>
                  match env.build
                  case Built(image) =>
                    && after.image == image && after.key == before.key && (IsReady(after) <==> image.imageURL != "")
                    && after.error == Some(Condition(false, g, ImageSuccess, ""))
                  case Invalid(message, _) =>
                    && !IsReady(after) && after.image.imageURL == "" && after.key == before.key
                    && after.error == Some(Condition(true, g, ImageBuildInvalid, message))
                  case NotReady(message, _) =>
                    after == before.(ready := Some(Condition(false, g, ImageSuccess, message)))
                  case BuildError(_) => after == before && Reconcile(w, env).error)
  {
    hide Format, Describes;
    WantedKeyDescribes(w.status.key, env);
  }

  /** When the configuration changes in any part, the next successful round makes a ready image unready and keeps it;
      and the next one after that discards it before anything else is built, plans its successor, and builds nothing. */
  lemma ChangeIsNoticed(w: World, env: Env, later: Env)
    requires CacheInv(w, false) && w.finalizer && IsReady(w.status)
    requires Smooth(env) && Smooth(later) && !Describes(w.status.key, env) && !Describes(w.status.key, later)
    ensures var one := Reconcile(w, env).world;
            var two := Reconcile(one, later).world;
            && !IsReady(one.status) && one.status.key == w.status.key && one.built == w.built == {w.status.key}
            && !IsReady(two.status) && Describes(two.status.key, later) && two.built == {}
  {
    hide Format, Describes;
    WantedKeyDescribes(w.status.key, env);
    WantedKeyDescribes(w.status.key, later);
    WantedKeyDescribes(WantedKey(later), later);
  }

  // ----- the source's procedure -----

  /** The object as one reconcile sees it: the server's status, the working copy, and the provider's cache. */
  class PreprovisioningImageReconciler {
    const env: Env
    var server: ImageStatus
    var status: ImageStatus
    var finalizer: bool
    var built: set<Key>

    constructor (w: World, env: Env)
      ensures this.env == env && Model() == w && status == w.status
    {
      this.env, server, status, finalizer, built := env, w.status, w.status, w.finalizer, w.built;
    }

    function Model(): World
      reads this
    {
      World(server, finalizer, built)
    }

    method RecordImage(image: GeneratedImage, key: Key, message: string) returns (changed: bool)
      modifies this`status
      ensures status == SetImage(old(status), env.generation, image, key, message)
      ensures changed <==> status != old(status)
    {
      var before := status;
      status := status.(image := image, key := key);
      status := status.(ready := Some(Condition(image.imageURL != "", env.generation, ImageSuccess, message)));
      status := status.(error := Some(Condition(false, env.generation, ImageSuccess, "")));
      changed := before != status;
    }

    /** Compares a status with a pointer to one, and so always reports a change. */
    method RecordUnready(message: string) returns (changed: bool)
      modifies this`status
      ensures status == SetUnready(old(status), env.generation, message) && changed
    {
      status := status.(ready := Some(Condition(false, env.generation, ImageSuccess, message)));
      changed := true;
    }

    /** As RecordUnready. */
    method RecordError(reason: Reason, message: string) returns (changed: bool)
      modifies this`status
      ensures status == SetError(old(status), env.generation, reason, message) && changed
    {
      status := status.(image := status.image.(imageURL := ""));
      status := status.(ready := Some(Condition(false, env.generation, reason, "")));
      status := status.(error := Some(Condition(true, env.generation, reason, message)));
      changed := true;
    }

    method DiscardExistingImage() returns (ok: bool)
      modifies this`built
      ensures built == Discard(status, old(built), env.discard) && (ok <==> !DiscardFails(status, env.discard))
    {
      if status.key.format == "" {
        return true;
      }
      ok := env.discard.Discarded?;
      if ok || env.discard.gone {
        built := built - {status.key};
      }
    }

    method GetImageFormat() returns (format: string)
      ensures format == Format(env.spec.acceptFormats, env.formats)
    {
      var accepted := env.spec.acceptFormats;
      for i := 0 to |accepted|
        invariant Format(accepted[i..], env.formats) == Format(accepted, env.formats)
      {
        if accepted[i] in env.formats {
          return accepted[i];
        }
      }
      format := "";
    }

    method UpdateImage() returns (changed: bool, failure: Failure)
      modifies this`status, this`built
      ensures Updated(status, built, changed, failure) == Update(old(status), old(built), env)
    {
      failure := NoFailure;
      if !env.supportsArchitecture {
        changed := RecordError(ConfigurationError, "Architecture not supported");
        return;
      }
      var format := GetImageFormat();
      if format == "" {
        changed := RecordError(ConfigurationError, "No acceptable image format supported");
        return;
      }
      var secretStatus := NO_SECRET;
      if env.spec.networkDataName != "" {
        match env.secret {
          case SecretNotFound =>
            changed := RecordError(MissingNetworkData, "NetworkData secret not found");
            return changed, SecretMissing;
          case SecretError => return false, OtherFailure;
          case SecretFound(version) => secretStatus := SecretStatus(env.spec.networkDataName, version);
        }
      }
      var key := Key(format, env.spec.architecture, secretStatus);
      if status.key != key {
        if IsReady(status) {
          var _ := RecordUnready("Config changed");
        } else {
          var ok := DiscardExistingImage();
          if !ok {
            return false, OtherFailure;
          }
          var _ := RecordImage(NO_IMAGE, key, "Config changed");
        }
        return true, NoFailure;
      }
      built := AfterBuild(key, built, env.build);
      match env.build {
        case Invalid(message, _) => changed := RecordError(ImageBuildInvalid, message);
        case NotReady(message, _) => return false, ImageNotReady(message);
        case BuildError(_) => return false, OtherFailure;
        case Built(image) => changed := RecordImage(image, key, "Generated image");
      }
    }

    method ReconcileImage() returns (error: bool)
      requires status == server
      modifies this
      ensures Reconciled(Model(), error) == Reconcile(old(Model()), env)
    {
      if env.deleting {
        var ok := DiscardExistingImage();
        if !ok {
          return true;
        }
        if finalizer {
          if !env.objectWritten {
            return true;
          }
          finalizer := false;
        }
        return false;
      }
      if !finalizer {
        finalizer := env.objectWritten;
        return !env.objectWritten;
      }
      var changed, failure := UpdateImage();
      error := failure != NoFailure;
      if failure.ImageNotReady? {
        var unready := RecordUnready(failure.message);
        changed := changed || unready;
      }
      if changed {
        if env.statusWritten {
          server := status;
        }
        error := !env.statusWritten;
      }
    }
  }
}
