/** Budget keys as the ledger spells them: a scope and a value around a NUL character, with an
    older colon form still understood on replay. */
module KeySpelling {
  import opened Options
  import opened GovernanceBook
  import Glob

  const NUL: char := '\0'

  function ScopeName(scope: Scope): string {
    match scope
    case Principal => "principal"
    case Tenant => "tenant"
    case Model => "model"
    case Upstream => "upstream"
  }

  /** The parts before and after the first separator. */
  function Cut(s: string, separator: char): Option<(string, string)> {
    if s == "" then None
    else if s[0] == separator then Some(("", s[1..]))
    else
      var rest := Cut(s[1..], separator);
      if rest.None? then None else Some(([s[0]] + rest.value.0, rest.value.1))
  }

  function Canonical(scope: string, value: string): string { Glob.Trim(scope) + [NUL] + value }

  function Parse(key: string): (string, string) {
    if Cut(key, NUL).Some? then Cut(key, NUL).value
    else if Cut(key, ':').Some? then Cut(key, ':').value
    else (key, "")
  }

  function Normalize(key: string): string {
    var (scope, value) := Parse(key);
    if value == "" then Canonical("principal", scope) else Canonical(scope, value)
  }

  /** The normal forms in order, each once. */
  function Normalized(keys: seq<string>): seq<string> {
    if keys == [] then [] else
      var before, key := Normalized(keys[..|keys| - 1]), Normalize(keys[|keys| - 1]);
      if key in before then before else before + [key]
  }

  method NormalizeAll(keys: seq<string>, principal: string) returns (result: seq<string>)
    ensures result == if keys == [] then [Canonical("principal", principal)] else Normalized(keys)
  {
    if keys == [] { return [Canonical("principal", principal)]; }
    result := [];
    for i := 0 to |keys|
      invariant result == Normalized(keys[..i])
    {
      assert keys[..i + 1][..i] == keys[..i];
      var key := Normalize(keys[i]);
      if key !in result { result := result + [key]; }
    }
    assert keys[..|keys|] == keys;
  }

  lemma {:induction false} NormalizedOnce(keys: seq<string>)
    ensures forall i, j :: 0 <= i < j < |Normalized(keys)| ==> Normalized(keys)[i] != Normalized(keys)[j]
    ensures forall i :: 0 <= i < |keys| ==> Normalize(keys[i]) in Normalized(keys)
  {
    if keys != [] { NormalizedOnce(keys[..|keys| - 1]); }
  }

  /** Keys in normal form are left as they are. */
  lemma {:induction false} NormalizedSpelled(keys: seq<string>)
    requires Spelled(keys)
    ensures Normalized(keys) == keys
  {
    if keys != [] {
      var past, last := keys[..|keys| - 1], keys[|keys| - 1];
      SpelledPrefix(keys, past, last);
      NormalizedSpelled(past);
    }
  }

  lemma {:induction false} SpelledPrefix(keys: seq<string>, past: seq<string>, last: string)
    requires Spelled(keys) && keys == past + [last]
    ensures Spelled(past) && Normalize(last) == last && last !in past
  {
    assert keys[|past|] == last;
    assert forall i :: 0 <= i < |past| ==> past[i] == keys[i];
  }

  /** Distinct keys that are their own normal form. */
  predicate Spelled(keys: seq<string>) {
    && (forall i, j :: 0 <= i < j < |keys| ==> keys[i] != keys[j])
    && (forall i :: 0 <= i < |keys| ==> Normalize(keys[i]) == keys[i])
  }

  // ---------------------------------------------------------------- spelling is faithful

  function SpellAll(keys: seq<Key>): seq<string> { seq(|keys|, i requires 0 <= i < |keys| => Spell(keys[i])) }

  function Spell(key: Key): string { Canonical(ScopeName(key.scope), key.value) }

  lemma {:induction false} CutAtFirst(left: string, separator: char, right: string)
    requires separator !in left
    ensures Cut(left + [separator] + right, separator) == Some((left, right))
  {
    var s := left + [separator] + right;
    if left == "" {
      assert s == [separator] + right;
    } else {
      CutAtFirst(left[1..], separator, right);
      assert s[1..] == left[1..] + [separator] + right && s[0] == left[0];
      assert [left[0]] + left[1..] == left;
    }
  }

  lemma {:induction false} ScopeNames(scope: Scope)
    ensures Glob.Trim(ScopeName(scope)) == ScopeName(scope) && NUL !in ScopeName(scope) && ScopeName(scope) != ""
  {
  }

  lemma {:induction false} ScopeNamesDiffer(a: Scope, b: Scope)
    requires ScopeName(a) == ScopeName(b)
    ensures a == b
  {
    assert ScopeName(Principal)[0] == 'p' && ScopeName(Tenant)[0] == 't'
      && ScopeName(Model)[0] == 'm' && ScopeName(Upstream)[0] == 'u';
  }

  /** Parsing gives back the scope and the value, whatever characters the value holds. */
  lemma {:induction false} ParseSpelled(key: Key)
    ensures Parse(Spell(key)) == (ScopeName(key.scope), key.value)
  {
    ScopeNames(key.scope);
    CutAtFirst(ScopeName(key.scope), NUL, key.value);
  }

  /** No two keys are spelled alike. */
  lemma {:induction false} SpellInjective(a: Key, b: Key)
    requires Spell(a) == Spell(b)
    ensures a == b
  {
    ParseSpelled(a);
    ParseSpelled(b);
    ScopeNamesDiffer(a.scope, b.scope);
  }

  /** Replay's normalization leaves a key of a non-empty value as it is; the empty value is
      the one it turns into another key. */
  lemma {:induction false} NormalizeSpelled(key: Key)
    ensures Normalize(Spell(key)) == Spell(key) <==> key.value != ""
  {
    ParseSpelled(key);
    ScopeNames(key.scope);
    if key.value == "" {
      ScopeNames(Principal);
      var other := Key(Principal, ScopeName(key.scope));
      assert Normalize(Spell(key)) == Spell(other);
      if Spell(other) == Spell(key) { SpellInjective(other, key); }
    }
  }

  /** A list of distinct keys survives the ledger. */
  lemma {:induction false} KeysSurvive(keys: seq<Key>)
    requires NoDuplicates(keys) && forall i :: 0 <= i < |keys| ==> keys[i].value != ""
    ensures Normalized(SpellAll(keys)) == SpellAll(keys)
  {
    var spelled := SpellAll(keys);
    forall i, j | 0 <= i < j < |spelled| ensures spelled[i] != spelled[j] {
      if spelled[i] == spelled[j] { SpellInjective(keys[i], keys[j]); }
    }
    forall i | 0 <= i < |spelled| ensures Normalize(spelled[i]) == spelled[i] { NormalizeSpelled(keys[i]); }
    NormalizedSpelled(spelled);
  }
}
