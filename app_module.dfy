/**
 * Start-up validation of the Nest application's configuration: the six
 * settings the mail relay needs must be present and non-empty.
 */
module AppModule {
  import opened Wrappers
  import opened Settings
  import JsString

  /** The required settings, in the order they are checked. */
  const RequiredVars: seq<string> :=
    ["SMTP_HOST", "SMTP_PORT", "SMTP_USER", "SMTP_PASSWORD", "SMTP_FROM", "NOTIFICATION_EMAILS"]

  /** `config[key]` is truthy: defined, and not the empty string (every other string is truthy). */
  predicate Truthy(config: Config, key: string)
  {
    JsString.Truthy(Lookup(config, key))
  }

  /** The message of the error thrown for a missing setting. */
  function MissingMessage(key: string): string
  {
    "Missing required environment variable: " + key
  }

  /** `keys[i]` is the first key of `keys` that is not truthy in `config`. */
  predicate IsFirstMissing(config: Config, keys: seq<string>, i: nat)
  {
    && i < |keys|
    && !Truthy(config, keys[i])
    && forall j :: 0 <= j < i ==> Truthy(config, keys[j])
  }

  /** The index of the first key, from `from` on, that is not truthy in `config`. */
  function FirstMissing(config: Config, keys: seq<string>, from: nat): (r: Option<nat>)
    requires from <= |keys|
    requires forall j :: 0 <= j < from ==> Truthy(config, keys[j])
    ensures r.Some? ==> IsFirstMissing(config, keys, r.value)
    ensures r.None? <==> forall j :: 0 <= j < |keys| ==> Truthy(config, keys[j])
    decreases |keys| - from
  {
    if from == |keys| then None
    else if !Truthy(config, keys[from]) then Some(from)
    else FirstMissing(config, keys, from + 1)
  }

  /**
   * What `validateConfig` does: the config itself when every required setting
   * is truthy, and otherwise the error naming the first missing one.
   */
  function Validate(config: Config): (r: Result<Config, string>)
    ensures r.Success? <==> forall j :: 0 <= j < |RequiredVars| ==> Truthy(config, RequiredVars[j])
    ensures r.Success? ==> r.value == config
    ensures r.Failure? ==>
      exists i: nat :: IsFirstMissing(config, RequiredVars, i) && r.error == MissingMessage(RequiredVars[i])
  {
    match FirstMissing(config, RequiredVars, 0)
    case None => Success(config)
    case Some(i) => Failure(MissingMessage(RequiredVars[i]))
  }

  /** `validateConfig`: walks the required settings and throws on the first one that is missing. */
  method ValidateConfig(config: Config) returns (r: Result<Config, string>)
    ensures r == Validate(config)
  {
    for i := 0 to |RequiredVars|
      invariant forall j :: 0 <= j < i ==> Truthy(config, RequiredVars[j])
    {
      if !Truthy(config, RequiredVars[i]) {
        FirstMissingUnique(config, RequiredVars, i);
        return Failure(MissingMessage(RequiredVars[i]));
      }
    }
    return Success(config);
  }

  /** There is at most one first missing key, and `FirstMissing` finds it. */
  lemma FirstMissingUnique(config: Config, keys: seq<string>, i: nat)
    requires IsFirstMissing(config, keys, i)
    ensures FirstMissing(config, keys, 0) == Some(i)
  {
    assert !Truthy(config, keys[i]);
  }

  /** The outcome depends only on which required settings are truthy, not on their values. */
  lemma {:induction false} ValidateUsesTruthinessOnly(c1: Config, c2: Config)
    requires forall j :: 0 <= j < |RequiredVars| ==> Truthy(c1, RequiredVars[j]) == Truthy(c2, RequiredVars[j])
    ensures Validate(c1).Success? == Validate(c2).Success?
    ensures Validate(c1).Failure? ==> Validate(c1).error == Validate(c2).error
  {
    var r := FirstMissing(c1, RequiredVars, 0);
    if r.Some? {
      FirstMissingUnique(c2, RequiredVars, r.value);
    }
  }

  /** Setting or removing a key outside the required list never changes the outcome. */
  lemma OtherKeysIrrelevant(config: Config, key: string, value: string)
    requires key !in RequiredVars
    ensures Validate(config[key := value]).Success? == Validate(config).Success?
    ensures Validate(config[key := value]).Failure? ==> Validate(config[key := value]).error == Validate(config).error
    ensures Validate(config - {key}).Success? == Validate(config).Success?
    ensures Validate(config - {key}).Failure? ==> Validate(config - {key}).error == Validate(config).error
  {
    forall j | 0 <= j < |RequiredVars|
      ensures Truthy(config[key := value], RequiredVars[j]) == Truthy(config, RequiredVars[j])
      ensures Truthy(config - {key}, RequiredVars[j]) == Truthy(config, RequiredVars[j])
    {
      assert RequiredVars[j] != key;
    }
    ValidateUsesTruthinessOnly(config[key := value], config);
    ValidateUsesTruthinessOnly(config - {key}, config);
  }

  /** The error message names the missing setting: different settings give different messages. */
  lemma MissingMessageNamesKey(k1: string, k2: string)
    requires MissingMessage(k1) == MissingMessage(k2)
    ensures k1 == k2
  {
    var p := "Missing required environment variable: ";
    assert k1 == MissingMessage(k1)[|p|..];
  }
}
