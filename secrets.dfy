/**
 * `getOptionsFromSecrets` (src/driver/controller-proxy/index.js:152-170): the request's
 * secrets whose names start with `config-` are parsed as YAML, in ascending key order, and
 * merged one over the other into a single options object.
 *
 * The YAML parser is a parameter `load`; a parse that throws is a `Failure`.
 */
module Secrets {
  import opened Wrappers
  import opened Errors
  import opened Json
  import opened Sorting

  const ConfigPrefix: string := "config-"

  /** `key.startsWith("config-")`; keys of a secrets map are always strings. */
  predicate IsConfigKey(k: string) {
    ConfigPrefix <= k
  }

  /** The configuration keys of `names`, in the order they appear there. */
  function ConfigNames(names: seq<string>): (r: seq<string>)
    ensures forall k :: k in r <==> k in names && IsConfigKey(k)
    ensures StrictlySorted(names) ==> StrictlySorted(r)
    decreases |names|
  {
    if names == [] then []
    else
      var init := names[..|names| - 1];
      var last := names[|names| - 1];
      assert StrictlySorted(names) ==> StrictlySorted(init) && forall k :: k in init ==> Below(k, last);
      if IsConfigKey(last) then ConfigNames(init) + [last] else ConfigNames(init)
  }

  /**
   * The accumulator after the loop has merged the secrets named by `names`, in that order:
   * `null` before the first one, and `_.merge(res, yaml.load(secret))` after each. The first
   * parse that throws ends the fold with its error.
   */
  function MergeSecrets(load: string -> Result<Value, Error>, secrets: map<string, string>, names: seq<string>): (r: Result<Value, Error>)
    requires forall n :: n in names ==> n in secrets
    ensures r.Success? ==> (r.value.Null? <==> names == [])
    ensures r.Success? ==> r.value.Null? || r.value.Obj?
    decreases |names|
  {
    if names == [] then Success(Null)
    else
      var init := names[..|names| - 1];
      var last := names[|names| - 1];
      var res :- MergeSecrets(load, secrets, init);
      var parsed :- load(secrets[last]);
      Success(Merge(res, parsed))
  }

  /**
   * A parse failure aborts the fold: it succeeds exactly when every named secret parses,
   * and a failure carries the error of the first one, in list order, that does not.
   */
  lemma {:induction false} MergeSecretsOutcome(load: string -> Result<Value, Error>, secrets: map<string, string>, names: seq<string>)
    requires forall n :: n in names ==> n in secrets
    ensures MergeSecrets(load, secrets, names).Success? <==> forall n :: n in names ==> load(secrets[n]).Success?
    ensures MergeSecrets(load, secrets, names).Failure? ==>
      exists i ::
        && 0 <= i < |names| && load(secrets[names[i]]) == Failure(MergeSecrets(load, secrets, names).error)
        && forall j :: 0 <= j < i ==> load(secrets[names[j]]).Success?
    decreases |names|
  {
    if names != [] {
      var init := names[..|names| - 1];
      var last := names[|names| - 1];
      assert names == init + [last];
      MergeSecretsOutcome(load, secrets, init);
      var r := MergeSecrets(load, secrets, names);
      if MergeSecrets(load, secrets, init).Failure? {
        var i :| 0 <= i < |init| && load(secrets[init[i]]) == Failure(MergeSecrets(load, secrets, init).error)
          && forall j :: 0 <= j < i ==> load(secrets[init[j]]).Success?;
        assert names[i] == init[i];
      } else if load(secrets[last]).Failure? {
        assert load(secrets[names[|names| - 1]]) == Failure(r.error);
      }
    }
  }

  /** `getOptionsFromSecrets(call)` for `call.request.secrets == secrets`. */
  function OptionsFromSecrets(load: string -> Result<Value, Error>, secrets: map<string, string>): (r: Result<Value, Error>)
    ensures r.Success? ==> (r.value.Null? <==> forall k :: k in secrets ==> !IsConfigKey(k))
    ensures r.Success? ==> r.value.Null? || r.value.Obj?
    ensures r.Success? <==> forall k :: k in secrets && IsConfigKey(k) ==> load(secrets[k]).Success?
    ensures r.Failure? ==>
      exists k ::
        && k in secrets && IsConfigKey(k) && load(secrets[k]) == Failure(r.error)
        && forall k' :: k' in secrets && IsConfigKey(k') && Below(k', k) ==> load(secrets[k']).Success?
  {
    var names := ConfigNames(SortedKeys(secrets.Keys));
    var r := MergeSecrets(load, secrets, names);
    MergeSecretsOutcome(load, secrets, names);
    if r.Failure? then
      FirstFailureIsLeast(load, secrets, names, r.error);
      r
    else
      assert names != [] ==> names[0] in secrets && IsConfigKey(names[0]);
      r
  }

  /** Carries MergeSecrets' first failing position over to sort order on the keys. */
  lemma FirstFailureIsLeast(load: string -> Result<Value, Error>, secrets: map<string, string>, names: seq<string>, e: Error)
    requires StrictlySorted(names)
    requires forall n :: n in names ==> n in secrets
    requires forall k :: k in names <==> k in secrets && IsConfigKey(k)
    requires exists i ::
      && 0 <= i < |names| && load(secrets[names[i]]) == Failure(e)
      && forall j :: 0 <= j < i ==> load(secrets[names[j]]).Success?
    ensures exists k ::
      && k in secrets && IsConfigKey(k) && load(secrets[k]) == Failure(e)
      && forall k' :: k' in secrets && IsConfigKey(k') && Below(k', k) ==> load(secrets[k']).Success?
  {
    var i :| 0 <= i < |names| && load(secrets[names[i]]) == Failure(e)
        && forall j :: 0 <= j < i ==> load(secrets[names[j]]).Success?;
    var k := names[i];
    forall k' | k' in secrets && IsConfigKey(k') && Below(k', k)
      ensures load(secrets[k']).Success?
    {
      var j :| 0 <= j < |names| && names[j] == k';
      if j == i {
        BelowIrreflexive(k);
      } else if j > i {
        BelowAsymmetric(k', k);
      }
    }
  }

  /** Filtering distributes over concatenation. */
  lemma {:induction false} ConfigNamesAppend(a: seq<string>, b: seq<string>)
    ensures ConfigNames(a + b) == ConfigNames(a) + ConfigNames(b)
    decreases |b|
  {
    if b == [] {
      assert a + b == a;
    } else {
      var b' := b[..|b| - 1];
      assert (a + b)[..|a + b| - 1] == a + b';
      assert (a + b)[|a + b| - 1] == b[|b| - 1];
      ConfigNamesAppend(a, b');
    }
  }

  /** Once a parse has thrown, merging further secrets does not change the outcome. */
  lemma {:induction false} FailurePersists(load: string -> Result<Value, Error>, secrets: map<string, string>, p: seq<string>, q: seq<string>)
    requires forall n :: n in p + q ==> n in secrets
    requires MergeSecrets(load, secrets, p).Failure?
    ensures MergeSecrets(load, secrets, p + q) == MergeSecrets(load, secrets, p)
    decreases |q|
  {
    if q == [] {
      assert p + q == p;
    } else {
      var q' := q[..|q| - 1];
      assert (p + q)[..|p + q| - 1] == p + q';
      FailurePersists(load, secrets, p, q');
    }
  }

  /** The same configuration keys, mapped to the same texts, fold to the same outcome. */
  lemma {:induction false} MergeSecretsAgree(load: string -> Result<Value, Error>, s1: map<string, string>, s2: map<string, string>, names: seq<string>)
    requires forall n :: n in names ==> n in s1 && n in s2 && s1[n] == s2[n]
    ensures MergeSecrets(load, s1, names) == MergeSecrets(load, s2, names)
    decreases |names|
  {
    if names != [] {
      MergeSecretsAgree(load, s1, s2, names[..|names| - 1]);
    }
  }

  /**
   * Only configuration secrets matter: two requests whose secrets agree on every key that
   * starts with `config-` produce the same options (or the same error).
   */
  lemma OnlyConfigSecretsMatter(load: string -> Result<Value, Error>, s1: map<string, string>, s2: map<string, string>)
    requires forall k :: IsConfigKey(k) ==> (k in s1 <==> k in s2)
    requires forall k :: k in s1 && IsConfigKey(k) ==> s1[k] == s2[k]
    ensures OptionsFromSecrets(load, s1) == OptionsFromSecrets(load, s2)
  {
    var n1 := ConfigNames(SortedKeys(s1.Keys));
    var n2 := ConfigNames(SortedKeys(s2.Keys));
    SortedUnique(n1, n2);
    MergeSecretsAgree(load, s1, s2, n1);
  }

  /**
   * Later keys win: where the last configuration secret in sort order holds a non-object
   * value at a path, the merged options hold that value there, whatever the earlier
   * secrets say.
   */
  lemma LastConfigKeyWins(load: string -> Result<Value, Error>, secrets: map<string, string>, k: string, v: Value, path: seq<string>, x: Value)
    requires k in secrets && IsConfigKey(k)
    requires forall k' :: k' in secrets && IsConfigKey(k') && k' != k ==> Below(k', k)
    requires load(secrets[k]) == Success(v)
    requires |path| > 0 && At(v, path) == Some(x) && !x.Obj?
    requires OptionsFromSecrets(load, secrets).Success?
    ensures At(OptionsFromSecrets(load, secrets).value, path) == Some(x)
  {
    var names := ConfigNames(SortedKeys(secrets.Keys));
    LastOfSorted(names, k);
    LastMerged(load, secrets, names, v);
    var res := MergeSecrets(load, secrets, names[..|names| - 1]).value;
    MergeSourceWins(res, v, path, x);
  }

  /**
   * A later key wins on conflict: where a configuration secret holds a non-object value at
   * a path, and every configuration secret after it in sort order parses to a non-object
   * or says nothing at that path, the merged options hold that value there, whatever the
   * earlier secrets say.
   */
  lemma LaterConfigKeyWins(load: string -> Result<Value, Error>, secrets: map<string, string>, k: string, v: Value, path: seq<string>, x: Value)
    requires k in secrets && IsConfigKey(k)
    requires load(secrets[k]) == Success(v)
    requires |path| > 0 && At(v, path) == Some(x) && !x.Obj?
    requires forall k' :: k' in secrets && IsConfigKey(k') && Below(k, k') ==>
      load(secrets[k']).Success? && (!load(secrets[k']).value.Obj? || Silent(load(secrets[k']).value, path))
    requires OptionsFromSecrets(load, secrets).Success?
    ensures At(OptionsFromSecrets(load, secrets).value, path) == Some(x)
  {
    var names := ConfigNames(SortedKeys(secrets.Keys));
    var i :| 0 <= i < |names| && names[i] == k;
    forall j | i < j < |names|
      ensures load(secrets[names[j]]).Success?
      ensures !load(secrets[names[j]]).value.Obj? || Silent(load(secrets[names[j]]).value, path)
    {
      assert Below(names[i], names[j]);
    }
    LaterPositionWins(load, secrets, names, i, v, path, x);
  }

  /** The fold form of LaterConfigKeyWins, by induction on the keys after position `i`. */
  lemma {:induction false} LaterPositionWins(load: string -> Result<Value, Error>, secrets: map<string, string>, names: seq<string>, i: nat, v: Value, path: seq<string>, x: Value)
    requires i < |names| && forall n :: n in names ==> n in secrets
    requires load(secrets[names[i]]) == Success(v)
    requires |path| > 0 && At(v, path) == Some(x) && !x.Obj?
    requires forall j :: i < j < |names| ==>
      load(secrets[names[j]]).Success? && (!load(secrets[names[j]]).value.Obj? || Silent(load(secrets[names[j]]).value, path))
    requires MergeSecrets(load, secrets, names).Success?
    ensures At(MergeSecrets(load, secrets, names).value, path) == Some(x)
    decreases |names|
  {
    var n := |names|;
    var init := names[..n - 1];
    var w := load(secrets[names[n - 1]]).value;
    LastMerged(load, secrets, names, w);
    var res := MergeSecrets(load, secrets, init).value;
    if i == n - 1 {
      MergeSourceWins(res, v, path, x);
    } else {
      forall j | i < j < |init|
        ensures load(secrets[init[j]]).Success? && (!load(secrets[init[j]]).value.Obj? || Silent(load(secrets[init[j]]).value, path))
      {
        assert init[j] == names[j];
      }
      LaterPositionWins(load, secrets, init, i, v, path, x);
      assert res.Obj?;
      MergeKeepsBase(res, w, path, x);
    }
  }

  /** The greatest element of a strictly sorted sequence is its last. */
  lemma LastOfSorted(names: seq<string>, k: string)
    requires StrictlySorted(names) && k in names
    requires forall n :: n in names && n != k ==> Below(n, k)
    ensures names[|names| - 1] == k
  {
    var last := names[|names| - 1];
    if last != k {
      var i :| 0 <= i < |names| && names[i] == k;
      assert Below(k, last);
      BelowAsymmetric(k, last);
    }
  }

  /** A successful fold ends by merging the last secret's parse into the fold of the others. */
  lemma LastMerged(load: string -> Result<Value, Error>, secrets: map<string, string>, names: seq<string>, v: Value)
    requires names != [] && forall n :: n in names ==> n in secrets
    requires load(secrets[names[|names| - 1]]) == Success(v)
    requires MergeSecrets(load, secrets, names).Success?
    ensures MergeSecrets(load, secrets, names[..|names| - 1]).Success?
    ensures MergeSecrets(load, secrets, names).value == Merge(MergeSecrets(load, secrets, names[..|names| - 1]).value, v)
  {
  }

  /** One turn of the loop: the fold over one more sorted key. */
  lemma MergeStep(load: string -> Result<Value, Error>, secrets: map<string, string>, names: seq<string>, i: nat)
    requires i < |names|
    requires forall n :: n in names ==> n in secrets
    requires MergeSecrets(load, secrets, ConfigNames(names[..i])).Success?
    ensures MergeSecrets(load, secrets, ConfigNames(names[..i + 1])) ==
      if !IsConfigKey(names[i]) then MergeSecrets(load, secrets, ConfigNames(names[..i]))
      else if load(secrets[names[i]]).Failure? then Failure(load(secrets[names[i]]).error)
      else Success(Merge(MergeSecrets(load, secrets, ConfigNames(names[..i])).value, load(secrets[names[i]]).value))
  {
    var a := names[..i];
    var b := names[..i + 1];
    assert b[..|b| - 1] == a && b[|b| - 1] == names[i];
    var c := ConfigNames(b);
    if IsConfigKey(names[i]) {
      assert c == ConfigNames(a) + [names[i]];
      assert c[..|c| - 1] == ConfigNames(a) && c[|c| - 1] == names[i];
    } else {
      assert c == ConfigNames(a);
    }
  }

  /** A parse failure at position `i` of the key list is the outcome of the whole fold. */
  lemma FailureAt(load: string -> Result<Value, Error>, secrets: map<string, string>, names: seq<string>, i: nat)
    requires i < |names|
    requires forall n :: n in names ==> n in secrets
    requires MergeSecrets(load, secrets, ConfigNames(names[..i + 1])).Failure?
    ensures MergeSecrets(load, secrets, ConfigNames(names)) == MergeSecrets(load, secrets, ConfigNames(names[..i + 1]))
  {
    assert names == names[..i + 1] + names[i + 1..];
    ConfigNamesAppend(names[..i + 1], names[i + 1..]);
    FailurePersists(load, secrets, ConfigNames(names[..i + 1]), ConfigNames(names[i + 1..]));
  }

  /**
   * `getOptionsFromSecrets` as the source runs it: a loop over the sorted key list that
   * skips other keys and merges each parsed configuration secret into `res`.
   */
  method GetOptionsFromSecrets(load: string -> Result<Value, Error>, secrets: map<string, string>) returns (r: Result<Value, Error>)
    ensures r == OptionsFromSecrets(load, secrets)
  {
    var names := SortedKeys(secrets.Keys);
    var res := Null;
    var i := 0;
    while i < |names|
      invariant 0 <= i <= |names|
      invariant MergeSecrets(load, secrets, ConfigNames(names[..i])) == Success(res)
    {
      var key := names[i];
      MergeStep(load, secrets, names, i);
      if IsConfigKey(key) {
        var parsed := load(secrets[key]);
        if parsed.Failure? {
          FailureAt(load, secrets, names, i);
          return Failure(parsed.error);
        }
        res := Merge(res, parsed.value);
      }
      i := i + 1;
    }
    assert names[..i] == names;
    r := Success(res);
  }
}
