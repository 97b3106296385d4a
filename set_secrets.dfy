/** The decisions of scripts/setSecrets.ts: where each named secret comes
    from, how a custom `KEY=VALUE` line is read, how the summary masks a value,
    what counts as a confirmation, and which variables the bulk and validation
    commands pick from the environment. The environment is a map, and what the
    user types at each prompt is an input; the Management API calls are not
    part of this model. Secrets are a record built by assignment, so they are
    entries in insertion order with string values. */
module SetSecrets {
  import opened Wrappers
  import opened Strings
  import opened JsObject

  /** `process.env`: the variables that are set. */
  type Env = map<string, string>

  /** `process.env[name]` as a condition: set and not empty. */
  predicate EnvSet(env: Env, name: string)
  {
    name in env && env[name] != ""
  }

  // ------------------------------------------------------- named secrets

  /** promptSecret(name, required): the environment value when there is one;
      otherwise the typed `answer`, where an empty answer is an error for a
      required secret and `null` for an optional one. */
  function PromptSecret(name: string, required: bool, env: Env, answer: string): (r: Result<Option<string>, string>)
    ensures EnvSet(env, name) ==> r == Ok(Some(env[name]))
    ensures !EnvSet(env, name) && answer != "" ==> r == Ok(Some(answer))
    ensures !EnvSet(env, name) && answer == "" ==> (r.Err? <==> required) && (r.Ok? ==> r.value.None?)
    ensures r.Err? ==> r.error == name + " is required"
    ensures r.Ok? && r.value.Some? ==> r.value.value != ""
  {
    if EnvSet(env, name) then Ok(Some(env[name]))
    else if answer == "" && required then Err(name + " is required")
    else Ok(if answer != "" then Some(answer) else None)
  }

  datatype SecretSpec = SecretSpec(name: string, required: bool)

  /** The named prompts, in order: five required, two optional. */
  const NamedSecrets: seq<SecretSpec> := [
    SecretSpec("BASE44_API_KEY", true),
    SecretSpec("BASE44_AGENT_API_URL", true),
    SecretSpec("OPENAI_API_KEY", true),
    SecretSpec("SUPABASE_SERVICE_ROLE_KEY", true),
    SecretSpec("SUPABASE_DB_URL", true),
    SecretSpec("SLACK_WEBHOOK_URL", false),
    SecretSpec("SENDGRID_API_KEY", false)
  ]

  /** What the user types at the prompt of `name`; an empty line when absent. */
  function AnswerOf(answers: map<string, string>, name: string): string
  {
    if name in answers then answers[name] else ""
  }

  /** The value a named secret ends up with, if any. */
  function Provided(env: Env, answers: map<string, string>, name: string): (r: Option<string>)
    ensures r.Some? ==> r.value != ""
  {
    if EnvSet(env, name) then Some(env[name])
    else if AnswerOf(answers, name) != "" then Some(AnswerOf(answers, name))
    else None
  }

  function Names(specs: seq<SecretSpec>): set<string>
  {
    set s | s in specs :: s.name
  }

  /** The named prompts in turn, each followed by `if (v) secrets.NAME = v`;
      a required secret left empty throws and ends the run. */
  function CollectNamed(specs: seq<SecretSpec>, env: Env, answers: map<string, string>, secrets: Entries): (r: Result<Entries, string>)
    decreases |specs|
  {
    if specs == [] then Ok(secrets)
    else
      var spec := specs[0];
      match PromptSecret(spec.name, spec.required, env, AnswerOf(answers, spec.name))
      case Err(e) => Err(e)
      case Ok(v) =>
        CollectNamed(specs[1..], env, answers, if v.Some? then Assign(secrets, spec.name, JStr(v.value)) else secrets)
  }

  /** The run fails exactly when some required secret is neither in the
      environment nor typed in. */
  lemma {:induction false} CollectNamedFails(specs: seq<SecretSpec>, env: Env, answers: map<string, string>, secrets: Entries)
    ensures CollectNamed(specs, env, answers, secrets).Err?
            <==> exists s :: s in specs && s.required && Provided(env, answers, s.name).None?
    decreases |specs|
  {
    if specs != [] {
      var spec := specs[0];
      var v := PromptSecret(spec.name, spec.required, env, AnswerOf(answers, spec.name));
      if v.Ok? {
        var next := if v.value.Some? then Assign(secrets, spec.name, JStr(v.value.value)) else secrets;
        CollectNamedFails(specs[1..], env, answers, next);
        assert forall s :: s in specs <==> s == spec || s in specs[1..];
      }
    }
  }

  /** A completed run holds every provided named secret with its value, and
      leaves every other key as it was. */
  lemma {:induction false} CollectNamedGet(specs: seq<SecretSpec>, env: Env, answers: map<string, string>, secrets: Entries, k: string)
    requires CollectNamed(specs, env, answers, secrets).Ok?
    ensures Get(CollectNamed(specs, env, answers, secrets).value, k)
            == if k in Names(specs) && Provided(env, answers, k).Some? then Some(JStr(Provided(env, answers, k).value))
               else Get(secrets, k)
    decreases |specs|
  {
    if specs != [] {
      var spec := specs[0];
      var v := PromptSecret(spec.name, spec.required, env, AnswerOf(answers, spec.name));
      var next := if v.value.Some? then Assign(secrets, spec.name, JStr(v.value.value)) else secrets;
      CollectNamedGet(specs[1..], env, answers, next, k);
      if v.value.Some? {
        AssignGet(secrets, spec.name, JStr(v.value.value), k);
      }
      assert Names(specs) == {spec.name} + Names(specs[1..]);
    }
  }

  // ------------------------------------------------------ custom secrets

  /** `const [key, ...valueParts] = line.split('=')`: the text before the
      first `=` and everything after it, later `=` included. Both parts must
      be non-empty as typed; they are stored trimmed. */
  function ParseCustom(line: string): (r: Option<(string, string)>)
  {
    var parts := SplitAtFirst(line, '=');
    if parts.0 == "" || parts.1 == "" then None else Some((Trim(parts.0), Trim(parts.1)))
  }

  lemma {:induction false} SplitAtFirstOf(k: string, c: char, v: string)
    requires c !in k
    ensures SplitAtFirst(k + [c] + v, c) == (k, v)
    decreases |k|
  {
    var s := k + [c] + v;
    if k != [] {
      assert s[1..] == k[1..] + [c] + v;
      SplitAtFirstOf(k[1..], c, v);
      assert [k[0]] + k[1..] == k;
    }
  }

  /** A line with a non-empty key free of `=` and a non-empty value is
      accepted, and is stored as the trimmed key and the trimmed value. */
  lemma ParseCustomOf(key: string, value: string)
    requires '=' !in key && key != "" && value != ""
    ensures ParseCustom(key + "=" + value) == Some((Trim(key), Trim(value)))
  {
    SplitAtFirstOf(key, '=', value);
  }

  /** A line without `=`, or with nothing before or after the first `=`, is rejected. */
  lemma ParseCustomRejects(key: string, value: string)
    requires '=' !in key
    ensures ParseCustom(key).None?
    ensures ParseCustom(key + "=").None?
    ensures ParseCustom("=" + value).None?
  {
    SplitAtFirstOf(key, '=', "");
    assert key + "=" == key + ['='] + "";
  }

  /** The check reads the parts before trimming: a key made only of spaces
      is accepted and stored under the empty name. */
  lemma BlankKeyStoredUnderEmptyName(key: string, value: string)
    requires key != "" && value != "" && forall i :: 0 <= i < |key| ==> IsJsSpace(key[i])
    ensures ParseCustom(key + "=" + value) == Some(("", Trim(value)))
  {
    assert '=' !in key by {
      forall i | 0 <= i < |key| ensures key[i] != '=' {
        assert IsJsSpace(key[i]);
      }
    }
    ParseCustomOf(key, value);
  }

  /** `secrets[key.trim()] = value.trim()` for an accepted line; a rejected
      line changes nothing. */
  function AddCustom(secrets: Entries, line: string): Entries
  {
    match ParseCustom(line)
    case None => secrets
    case Some((key, value)) => Assign(secrets, key, JStr(value))
  }

  /** The `while (true)` loop over the typed lines: an empty line ends it. */
  function CustomFold(secrets: Entries, lines: seq<string>): Entries
    decreases |lines|
  {
    if lines == [] || lines[0] == "" then secrets
    else CustomFold(AddCustom(secrets, lines[0]), lines[1..])
  }

  /** Nothing typed after the first empty line is read. */
  lemma {:induction false} CustomStopsAtEmpty(secrets: Entries, before: seq<string>, after: seq<string>)
    requires forall i :: 0 <= i < |before| ==> before[i] != ""
    ensures CustomFold(secrets, before + [""] + after) == CustomFold(secrets, before)
    decreases |before|
  {
    if before != [] {
      assert (before + [""] + after)[1..] == before[1..] + [""] + after;
      CustomStopsAtEmpty(AddCustom(secrets, before[0]), before[1..], after);
    }
  }

  /** The custom-secret loop, one prompt at a time. `read` is the number of
      non-empty lines taken before the loop stopped. */
  method CollectCustom(secrets: Entries, lines: seq<string>) returns (result: Entries, read: nat)
    ensures result == CustomFold(secrets, lines)
    ensures read <= |lines| && (read < |lines| ==> lines[read] == "")
    ensures forall i :: 0 <= i < read ==> lines[i] != ""
  {
    result := secrets;
    read := 0;
    while read < |lines| && lines[read] != ""
      invariant read <= |lines|
      invariant forall i :: 0 <= i < read ==> lines[i] != ""
      invariant CustomFold(result, lines[read..]) == CustomFold(secrets, lines)
      decreases |lines| - read
    {
      assert lines[read..][1..] == lines[read + 1..];
      result := AddCustom(result, lines[read]);
      read := read + 1;
    }
  }

  // ------------------------------------------------- summary and confirmation

  /** A key whose value the summary hides. */
  predicate Sensitive(key: string)
  {
    Contains(key, "KEY") || Contains(key, "SECRET") || Contains(key, "PASSWORD")
  }

  const Hidden: string := "***hidden***"

  /** The summary text of one secret: hidden for a sensitive key, otherwise
      the first ten characters of the value followed by `...`. */
  function Mask(key: string, value: string): (r: string)
    ensures r == Hidden <==> Sensitive(key)
    ensures !Sensitive(key) ==>
              |r| == Min(10, |value|) + 3 && StartsWith(value, r[..|r| - 3]) && r[|r| - 3..] == "..."
  {
    if Sensitive(key) then Hidden
    else
      var r := Take(value, 10) + "...";
      assert r[|r| - 1] == '.' != Hidden[|Hidden| - 1];
      assert r[..|r| - 3] == Take(value, 10);
      r
  }

  /** `confirm.toLowerCase()` is `yes` or `y`. */
  predicate Confirmed(answer: string)
  {
    ToLower(answer) == "yes" || ToLower(answer) == "y"
  }

  /** Exactly the ten spellings of `y` and `yes` in either case confirm. */
  lemma ConfirmedSpellings(answer: string)
    ensures Confirmed(answer) <==>
              answer in {"y", "Y", "yes", "yeS", "yEs", "yES", "Yes", "YeS", "YEs", "YES"}
  {
    if Confirmed(answer) {
      if |answer| == 1 {
        assert LowerChar(answer[0]) == 'y';
        assert answer == [answer[0]];
      } else {
        assert LowerChar(answer[0]) == 'y' && LowerChar(answer[1]) == 'e' && LowerChar(answer[2]) == 's';
        assert answer == [answer[0], answer[1], answer[2]];
      }
    }
  }

  /** How an interactive run ends: a missing required secret, a refusal at
      the confirmation, or the secrets handed to the Management API. */
  datatype RunOutcome = Aborted(error: string) | Cancelled | Applied(secrets: Entries)

  /** setSecrets(): named prompts, then custom lines, then the confirmation. */
  function SetSecretsRun(env: Env, answers: map<string, string>, customLines: seq<string>, confirm: string): (r: RunOutcome)
    ensures r.Applied? <==> CollectNamed(NamedSecrets, env, answers, []).Ok? && Confirmed(confirm)
    ensures r.Applied? ==> r.secrets == CustomFold(CollectNamed(NamedSecrets, env, answers, []).value, customLines)
    ensures r.Aborted? <==> exists s :: s in NamedSecrets && s.required && Provided(env, answers, s.name).None?
  {
    CollectNamedFails(NamedSecrets, env, answers, []);
    match CollectNamed(NamedSecrets, env, answers, [])
    case Err(e) => Aborted(e)
    case Ok(named) =>
      if Confirmed(confirm) then Applied(CustomFold(named, customLines)) else Cancelled
  }

  // ---------------------------------------------------- bulk and validation

  /** The variables bulkUpdateFromEnv copies. */
  const BulkKeys: seq<string> := [
    "BASE44_API_KEY", "BASE44_AGENT_API_URL", "OPENAI_API_KEY", "SUPABASE_SERVICE_ROLE_KEY",
    "SUPABASE_DB_URL", "SLACK_WEBHOOK_URL", "SENDGRID_API_KEY"
  ]

  /** `keys.forEach(k => { if (env[k]) secrets[k] = env[k] })`. */
  function EnvEntries(keys: seq<string>, env: Env): (r: Entries)
    decreases |keys|
  {
    if keys == [] then []
    else
      var k := keys[|keys| - 1];
      var rest := EnvEntries(keys[..|keys| - 1], env);
      if EnvSet(env, k) then Assign(rest, k, JStr(env[k])) else rest
  }

  /** The collected record holds exactly the listed keys that are set, each
      with its environment value, and no key twice. */
  lemma {:induction false} EnvEntriesGet(keys: seq<string>, env: Env, k: string)
    ensures Get(EnvEntries(keys, env), k) == if k in keys && EnvSet(env, k) then Some(JStr(env[k])) else None
    ensures DistinctKeys(EnvEntries(keys, env))
    decreases |keys|
  {
    if keys != [] {
      var last := keys[|keys| - 1];
      var front := keys[..|keys| - 1];
      EnvEntriesGet(front, env, k);
      var rest := EnvEntries(front, env);
      if EnvSet(env, last) {
        AssignGet(rest, last, JStr(env[last]), k);
        AssignDistinct(rest, last, JStr(env[last]));
      }
      assert keys == front + [last];
    }
  }

  datatype BulkOutcome = NothingToSet | BulkApplied(secrets: Entries)

  /** bulkUpdateFromEnv(): the forEach over the listed variables, then an
      early exit when none was set. */
  method BulkUpdateFromEnv(env: Env) returns (outcome: BulkOutcome)
    ensures outcome.NothingToSet? <==> forall k :: k in BulkKeys ==> !EnvSet(env, k)
    ensures outcome.BulkApplied? ==> outcome.secrets == EnvEntries(BulkKeys, env)
  {
    var secrets: Entries := [];
    var i := 0;
    while i < |BulkKeys|
      invariant 0 <= i <= |BulkKeys|
      invariant secrets == EnvEntries(BulkKeys[..i], env)
    {
      var key := BulkKeys[i];
      assert BulkKeys[..i + 1] == BulkKeys[..i] + [key];
      if key in env && env[key] != "" {
        secrets := Assign(secrets, key, JStr(env[key]));
      }
      i := i + 1;
    }
    assert BulkKeys[..i] == BulkKeys;
    if secrets == [] {
      outcome := NothingToSet;
      forall k | k in BulkKeys ensures !EnvSet(env, k) {
        EnvEntriesGet(BulkKeys, env, k);
      }
    } else {
      outcome := BulkApplied(secrets);
      var k := secrets[0].0;
      EnvEntriesGet(BulkKeys, env, k);
    }
  }

  /** The variables validateEnvironment insists on. */
  const RequiredEnv: seq<string> := ["SUPABASE_MANAGEMENT_ACCESS_TOKEN", "SUPABASE_PROJECT_REF"]

  /** `required.filter(key => !process.env[key])`: the unset ones, in order. */
  function Missing(keys: seq<string>, env: Env): (r: seq<string>)
    ensures |r| <= |keys|
    ensures forall k :: k in r <==> k in keys && !EnvSet(env, k)
  {
    if keys == [] then []
    else (if EnvSet(env, keys[0]) then [] else [keys[0]]) + Missing(keys[1..], env)
  }

  /** validateEnvironment() lets the script go on exactly when both variables are set. */
  lemma ValidationPasses(env: Env)
    ensures Missing(RequiredEnv, env) == [] <==> EnvSet(env, RequiredEnv[0]) && EnvSet(env, RequiredEnv[1])
  {
    if Missing(RequiredEnv, env) == [] {
      assert RequiredEnv[0] in RequiredEnv && RequiredEnv[1] in RequiredEnv;
    }
  }
}
