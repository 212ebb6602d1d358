/** Loading an inference model's artifacts from the object store when the skill is built
  * (`InferenceModel._load_model_and_scaler` in src/task/math_optimizer/strategy/skills/models.py and
  * src/strategy/skills/models.py). Each fetch may fail; some failures invalidate the cached copy
  * and retry once; any failure that escapes leaves all three artifacts unset. */
module Artifacts {
  import opened Wrappers
  import opened Texts
  import opened Json
  import opened Config
  import opened Oracles

  /** The loaded network, scaler set and metadata (None when not loaded), and the store paths whose
    * cached copy was invalidated on the way, in order. */
  datatype Artifacts = Artifacts(model: Option<nat>, scaler: Option<ScalerSet>, metadata: Option<Json>, invalidated: seq<string>)

  /** One loading step: the value, or None when the step raised; and the invalidations it made. */
  datatype Loaded<T> = Loaded(value: Option<T>, invalidated: seq<string>)

  /** The store key of a configured path: `models/` followed by the path with every `../` removed in
    * one left-to-right pass. */
  function ArtifactPath(p: string): (r: string)
    ensures StartsWith(r, "models/") && |r| <= 7 + |p|
  {
    "models/" + RemoveAll(p, "../")
  }

  /** A path without `../` is only prefixed. */
  lemma ArtifactPathPlain(p: string)
    requires !Contains(p, "../")
    ensures ArtifactPath(p) == "models/" + p
  {
    RemoveAllAbsent(p, "../");
  }

  /** One pass does not remove every parent step: removing the two occurrences in `..././x` joins
    * the remaining characters into a new `../`. */
  lemma ArtifactPathMayKeepParent()
    ensures ArtifactPath("..././x") == "models/../x"
    ensures Contains(ArtifactPath("..././x"), "../")
  {
    assert RemoveAll("/x", "../") == "/x";
    assert RemoveAll("./x", "../") == "./x" by {
      assert "./x"[..3][1] == '/' != "../"[1];
      assert "./x"[1..] == "/x";
    }
    assert RemoveAll(".././x", "../") == "./x" by {
      assert ".././x"[..3] == "../";
      assert ".././x"[3..] == "./x";
    }
    assert RemoveAll("..././x", "../") == "../x" by {
      assert "..././x"[..3][2] == '.' != "../"[2];
      assert "..././x"[1..] == ".././x";
    }
    assert OccursAt("models/../x", "../", 7);
  }

  /** `if self.model_path:` — a missing, null or empty path is skipped. */
  predicate Configured(p: Option<string>) {
    p.Some? && p.value != ""
  }

  /** Whether a failed model load is retried after invalidating the cached copy: in the current code
    * any exception whose lower-cased text mentions `corrupted` or `cache`; in the legacy code only a
    * `FileNotFoundError` whose text mentions both `No such file or directory` and `.pth`. */
  predicate RetryModel(lineage: Lineage, kind: string, message: string) {
    match lineage
    case Current => Contains(LowerAscii(message), "corrupted") || Contains(LowerAscii(message), "cache")
    case Legacy => kind == "FileNotFoundError" && Contains(message, "No such file or directory") && Contains(message, ".pth")
  }

  /** One download-and-load attempt of the network. The input size is `len(self.inputs)`, which
    * raises a `TypeError` (never retried) when the skill has no inputs. */
  function ModelAttempt(env: Env, path: string, attempt: nat, inputs: Option<seq<string>>): Fetch<nat> {
    match env.fetchModel(path, attempt)
    case FetchFailed(k, m) => FetchFailed(k, m)
    case Fetched(sd) =>
      if inputs.None? then FetchFailed("TypeError", "object of type 'NoneType' has no len()")
      else env.loadModel(|inputs.value|, sd)
  }

  function LoadModel(env: Env, lineage: Lineage, path: string, inputs: Option<seq<string>>): (r: Loaded<nat>)
    ensures |r.invalidated| <= 1 && (|r.invalidated| == 1 ==> r.invalidated[0] == path)
    ensures inputs.None? ==> r.value.None?
  {
    match ModelAttempt(env, path, 0, inputs)
    case Fetched(m) => Loaded(Some(m), [])
    case FetchFailed(k, msg) =>
      if !RetryModel(lineage, k, msg) then Loaded(None, [])
      else match ModelAttempt(env, path, 1, inputs)
        case Fetched(m) => Loaded(Some(m), [path])
        case FetchFailed(_, _) => Loaded(None, [path])
  }

  /** The scaler download is retried when the text mentions `No such file or directory`, or
    * `corrupted` in any case. */
  function LoadScaler(env: Env, path: string): (r: Loaded<ScalerSet>)
    ensures |r.invalidated| <= 1 && (|r.invalidated| == 1 ==> r.invalidated[0] == path)
  {
    match env.fetchScaler(path, 0)
    case Fetched(s) => Loaded(Some(s), [])
    case FetchFailed(_, msg) =>
      if !(Contains(msg, "No such file or directory") || Contains(LowerAscii(msg), "corrupted")) then Loaded(None, [])
      else match env.fetchScaler(path, 1)
        case Fetched(s) => Loaded(Some(s), [path])
        case FetchFailed(_, _) => Loaded(None, [path])
  }

  /** The three steps in order, model, scaler, metadata, each skipped when its path is not
    * configured; the first step that raises ends loading with nothing loaded. */
  function Load(env: Env, lineage: Lineage, inputs: Option<seq<string>>,
                modelPath: Option<string>, scalerPath: Option<string>, metadataPath: Option<string>): (r: Artifacts)
    ensures !Configured(modelPath) ==> r.model.None?
    ensures !Configured(scalerPath) ==> r.scaler.None?
    ensures !Configured(metadataPath) ==> r.metadata.None?
    ensures r.model.Some? || r.scaler.Some? || r.metadata.Some? ==>
      (Configured(modelPath) <==> r.model.Some?) && (Configured(scalerPath) <==> r.scaler.Some?)
      && (Configured(metadataPath) <==> r.metadata.Some?)
    ensures forall q :: q in r.invalidated ==>
      (Configured(modelPath) && q == ArtifactPath(modelPath.value)) || (Configured(scalerPath) && q == ArtifactPath(scalerPath.value))
    ensures |r.invalidated| <= 2
  {
    var m := if Configured(modelPath) then LoadModel(env, lineage, ArtifactPath(modelPath.value), inputs) else Loaded(None, []);
    if Configured(modelPath) && m.value.None? then Artifacts(None, None, None, m.invalidated)
    else
      var s := if Configured(scalerPath) then LoadScaler(env, ArtifactPath(scalerPath.value)) else Loaded(None, []);
      if Configured(scalerPath) && s.value.None? then Artifacts(None, None, None, m.invalidated + s.invalidated)
      else
        var d := if Configured(metadataPath) then env.fetchMetadata(ArtifactPath(metadataPath.value)) else FetchFailed("", "");
        if Configured(metadataPath) && d.FetchFailed? then Artifacts(None, None, None, m.invalidated + s.invalidated)
        else Artifacts(m.value, s.value, if d.Fetched? then Some(d.value) else None, m.invalidated + s.invalidated)
  }
}
