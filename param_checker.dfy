/**
  The `ParamChecker` trait: `checkConfig` walks the required field names in
  order and fails on the first one that is not a key of the configuration.
 */
module ParamChecker {

  import opened Wrappers
  import opened Config

  function MissingMessage(field: string): string
  {
    "config:" + field + " is not defined"
  }

  /** Index of the first required field that is not a key of `config`. */
  function FirstMissing(config: Config, needFields: seq<string>): (r: Option<nat>)
    ensures r.None? <==> forall i :: 0 <= i < |needFields| ==> needFields[i] in config
    ensures r.Some? ==> r.value < |needFields| && needFields[r.value] !in config
    ensures r.Some? ==> forall j :: 0 <= j < r.value ==> needFields[j] in config
  {
    if needFields == [] then None
    else if needFields[0] !in config then Some(0)
    else match FirstMissing(config, needFields[1..])
      case None => None
      case Some(k) => Some(k + 1)
  }

  /** What `checkConfig` does, as a value: success, or the error naming the first missing field. */
  function Check(config: Config, needFields: seq<string>): Result<()>
  {
    match FirstMissing(config, needFields)
    case None => Ok(())
    case Some(k) => Err(FsException(MissingMessage(needFields[k])))
  }

  /**
    `checkConfig`: succeeds iff every required name is a key of `config` (a key
    mapped to null is present); otherwise the error names the first missing
    field in `needFields` order. `config` is a value and is left as it was.
   */
  method CheckConfig(config: Config, needFields: seq<string>) returns (r: Result<()>)
    ensures r.Ok? <==> forall i :: 0 <= i < |needFields| ==> needFields[i] in config
    ensures r.Err? ==> (exists k :: 0 <= k < |needFields| && needFields[k] !in config &&
                                    (forall j :: 0 <= j < k ==> needFields[j] in config) &&
                                    r.error == FsException(MissingMessage(needFields[k])))
    ensures r == Check(config, needFields)
  {
    var i := 0;
    while i < |needFields|
      invariant 0 <= i <= |needFields|
      invariant forall j :: 0 <= j < i ==> needFields[j] in config
    {
      if needFields[i] !in config {
        assert FirstMissing(config, needFields) == Some(i) by {
          FirstMissingIsFirst(config, needFields, i);
        }
        return Err(FsException(MissingMessage(needFields[i])));
      }
      i := i + 1;
    }
    return Ok(());
  }

  /** The first-missing index is pinned down by "missing here, present before". */
  lemma FirstMissingIsFirst(config: Config, needFields: seq<string>, i: nat)
    requires i < |needFields| && needFields[i] !in config
    requires forall j :: 0 <= j < i ==> needFields[j] in config
    ensures FirstMissing(config, needFields) == Some(i)
  {
    var r := FirstMissing(config, needFields);
    assert r.Some? && r.value <= i;
  }
}
