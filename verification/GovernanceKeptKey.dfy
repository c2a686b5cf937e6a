/** A late binding can exceed the budget of a key that stays, too: here the principal's own. */
module GovernanceKeptKey {
  import opened MapSums
  import opened GovernanceBook
  import opened GovernancePolicy
  import opened Governance
  import opened GovernanceBounds
  import Late = GovernanceLateBinding
  import Glob

  /** Ten tokens a minute for each principal, five for each of two upstreams. */
  const TIGHT := Config(true, false, 0, 0, 10, 0, 10, 0, 0, 0, 0, 0, false, map[],
                        [Budget(Upstream, "u", 0, 0, 5, 0), Budget(Upstream, "v", 0, 0, 5, 0)])

  const RUN: seq<Op> := [Admit("a", Caller("u"), 0, true, true), Admit("b", Caller("v"), 0, true, true),
                         Bind("a", "w", 60, true)]

  function Caller(upstream: string): Admission { Admission("p", "", "m", upstream) }

  function Mine(): Key { Key(Principal, "p") }

  function Toward(upstream: string): Key { Key(Upstream, upstream) }

  /** The state of a reservation once it has been admitted for an upstream. */
  function Held(upstream: string): Reservation {
    NewReservation(Caller(upstream), [Mine(), Toward(upstream)])
      .(tokens := 5, attempts := map[FIRST_ATTEMPT := NewAttempt(0, Amount(5, 0), [Mine(), Toward(upstream)])])
  }

  lemma {:induction false} Spelling()
    ensures Glob.Trim("u") == "u" && Glob.Trim("v") == "v" && Glob.Trim("w") == "w"
    ensures Glob.Trim("a") == "a" && Glob.Trim("b") == "b" && Glob.Trim("p") == "p" && Glob.Trim("m") == "m"
    ensures Glob.Trim("") == ""
  {}

  lemma {:induction false} TightKeys(upstream: string)
    requires upstream in {"u", "v", "w"}
    ensures BudgetKeys(TIGHT, Caller(upstream)) == if upstream == "w" then [Mine()] else [Mine(), Toward(upstream)]
  {
    Spelling();
    var adm := Caller(upstream);
    assert KeysUpTo(TIGHT, adm, 0) == [Mine()];
    assert KeysUpTo(TIGHT, adm, 1) == if upstream == "u" then [Mine(), Toward("u")] else [Mine()];
  }

  lemma {:induction false} TightLimits(upstream: string)
    requires upstream in {"u", "v"}
    ensures LimitsFor(TIGHT, Mine()) == Limits(false, 0, 0, 10, 0)
    ensures LimitsFor(TIGHT, Toward(upstream)) == Limits(false, 0, 0, 5, 0)
  {
    Spelling();
    var k := Toward(upstream);
    assert LimitsUpTo(TIGHT, Mine(), 0) == Limits(false, 0, 0, 10, 0) && LimitsUpTo(TIGHT, k, 0) == Limits(false, 0, 0,
                                                                                                           0, 0);
    assert LimitsUpTo(TIGHT, Mine(), 1) == Limits(false, 0, 0, 10, 0);
    assert LimitsUpTo(TIGHT, k, 1) == if upstream == "u" then Limits(false, 0, 0, 5, 0) else Limits(false, 0, 0, 0, 0);
  }

  lemma {:induction false} TightAmounts(upstream: string, keys: seq<Key>)
    requires upstream in {"u", "v"}
    ensures keys == [Mine(), Toward(upstream)] ==> Amounts(TIGHT, map[], "m", keys) == Amount(5, 0)
    ensures keys == [Mine()] ==> Amounts(TIGHT, map[], "m", keys) == Amount(10, 0)
  {
    TightLimits(upstream);
    if keys == [Mine(), Toward(upstream)] || keys == [Mine()] {
      assert TokenLimitOver(TIGHT, keys, 0) == 0 && CostLimitOver(TIGHT, keys, 0) == 0;
      assert TokenLimitOver(TIGHT, keys, 1) == 10 && CostLimitOver(TIGHT, keys, 1) == 0;
    }
  }

  predicate Tight(g: Gov) { g.config == TIGHT && g.journalUp && g.estimates == map[] }

  /** The principal holds so many tokens in the first minute, and nothing in the next. */
  predicate Shows(g: Gov, requests: int, tokens: int) {
    && At(g.book.usage, Slot(Mine(), 0)) == Usage(requests, 0, 0, tokens, 0, 0)
    && At(g.book.usage, Slot(Mine(), 60)) == UNUSED
  }

  lemma {:induction false} AdmitFits(b: Book, id: string, upstream: string, keys: seq<Key>)
    requires upstream in {"u", "v"} && keys == [Mine(), Toward(upstream)]
    requires Committed(At(b.usage, Slot(Mine(), 0)), Tokens) <= 5 && At(b.usage, Slot(Toward(upstream), 0)) == UNUSED
    ensures JudgeAttempts(TIGHT, b, id, 0, keys, Amount(5, 0), |keys|) == Fits
  {
    TightLimits(upstream);
    JudgeAttemptsFits(TIGHT, b, id, 0, keys, Amount(5, 0), |keys|);
    forall i | 0 <= i < |keys| ensures JudgeAttempt(TIGHT, b, id, 0, keys[i], Amount(5, 0)) == Fits {
      assert keys[i] == Mine() || keys[i] == Toward(upstream);
    }
  }

  lemma {:induction false} CallerSpelled(id: string, upstream: string)
    requires upstream in {"u", "v"} && id in {"a", "b"}
    ensures ValidId(id) && Glob.Trim(id) == id
    ensures Normalize(Caller(upstream)) == Caller(upstream) && !TenantRequired(TIGHT)
  {
    Spelling();
  }

  /** The book after the admission. */
  function Taken(b: Book, id: string, upstream: string, keys: seq<Key>): Book {
    OpenAttempt(b, id, NewReservation(Caller(upstream), keys), FIRST_ATTEMPT, NewAttempt(0, Amount(5, 0), keys))
  }

  lemma {:induction false} AdmitTaken(g: Gov, h: Gov, id: string, upstream: string, keys: seq<Key>)
    requires upstream in {"u", "v"} && id in {"a", "b"} && Tight(g) && keys == [Mine(), Toward(upstream)]
    requires id !in g.book.reservations && At(g.book.usage, Slot(Toward(upstream), 0)) == UNUSED
    requires Committed(At(g.book.usage, Slot(Mine(), 0)), Tokens) <= 5
    requires h == AdmitStep(g, id, Caller(upstream), 0, true, true).0
    ensures Tight(h) && h.book == Taken(g.book, id, upstream, keys)
  {
    CallerSpelled(id, upstream);
    TightKeys(upstream);
    TightAmounts(upstream, keys);
    AdmitFits(g.book, id, upstream, keys);
    Late.AdmitAccepted(g, id, Caller(upstream), 0, keys, Amount(5, 0));
  }

  lemma {:induction false} AdmitHeld(g: Gov, h: Gov, id: string, upstream: string, keys: seq<Key>, requests: int,
                                     tokens: int)
    requires Shows(g, requests, tokens) && keys == [Mine(), Toward(upstream)]
    requires h.book == Taken(g.book, id, upstream, keys)
    ensures Shows(h, requests + 1, tokens + 5) && h.book.reservations == g.book.reservations[id := Held(upstream)]
    ensures forall other :: other !in keys ==> At(h.book.usage, Slot(other, 0)) == At(g.book.usage, Slot(other, 0))
  {
    ChargedRows(g.book.usage, NewAttempt(0, Amount(5, 0), keys), keys);
  }

  lemma {:induction false} ChargedRows(usage: map<Slot, Usage>, a: Attempt, keys: seq<Key>)
    requires a.keys == keys && a.window == 0 && Mine() in keys
    ensures At(Charge(usage, a), Slot(Mine(), 0)) == Plus(At(usage, Slot(Mine(), 0)), 1, a.tokens, a.cost)
    ensures At(Charge(usage, a), Slot(Mine(), 60)) == At(usage, Slot(Mine(), 60))
    ensures forall other :: other !in keys ==> At(Charge(usage, a), Slot(other, 0)) == At(usage, Slot(other, 0))
  {
    ChargeAt(usage, a, Slot(Mine(), 0));
    ChargeAt(usage, a, Slot(Mine(), 60));
    forall other | other !in keys ensures At(Charge(usage, a), Slot(other, 0)) == At(usage, Slot(other, 0)) {
      ChargeAt(usage, a, Slot(other, 0));
    }
  }

  lemma {:induction false} HeldAttempts(window: int)
    ensures OwnIn(Held("u"), window) == if window == 0 then 1 else 0
    ensures Load(Held("u"), Slot(Mine(), 0), Tokens) == 5
  {
    var r := Held("u");
    assert r.attempts - {FIRST_ATTEMPT} == map[];
    SumRemove(r.attempts, OpenIn(window), FIRST_ATTEMPT);
    SumRemove(r.attempts, AttemptLoad(Slot(Mine(), 0), Tokens), FIRST_ATTEMPT);
  }

  lemma {:induction false} LateFits(b: Book, id: string, keys: seq<Key>)
    requires id in b.reservations && b.reservations[id] == Held("u") && keys == [Mine()]
    requires At(b.usage, Slot(Mine(), 60)) == UNUSED
    ensures JudgeBindings(TIGHT, b, id, 60, keys, Amount(10, 0), |keys|) == Fits
  {
    TightLimits("u");
    HeldAttempts(60);
    JudgeBindingsFits(TIGHT, b, id, 60, keys, Amount(10, 0), |keys|);
    assert JudgeBinding(TIGHT, b, id, 60, keys[0], Amount(10, 0)) == Fits;
  }

  lemma {:induction false} RaisedTo(b: Book, id: string, keys: seq<Key>)
    requires id in b.reservations && b.reservations[id] == Held("u") && keys == [Mine()]
    requires Committed(At(b.usage, Slot(Mine(), 0)), Tokens) == 10
    ensures Late.BoundTo(b, Held("u"), keys, Amount(10, 0), Slot(Mine(), 0), Tokens) == 15
  {
    HeldAttempts(0);
  }

  lemma {:induction false} BindRaises(g: Gov, h: Gov, keys: seq<Key>)
    requires BothIn(g) && keys == [Mine()]
    requires h == BindStep(g, "a", "w", 60, true).0
    ensures Committed(At(h.book.usage, Slot(Mine(), 0)), Tokens) == 15
  {
    Spelling();
    TightKeys("w");
    TightAmounts("u", keys);
    LateFits(g.book, "a", keys);
    assert AdmissionOf(Held("u")).(upstream := "w") == Caller("w");
    Late.BindAccepted(g, "a", Held("u"), "w", keys, Amount(10, 0));
    RaisedTo(g.book, "a", keys);
    Late.BindingKeepsLimitIff(g.book, "a", "w", keys, Amount(10, 0), Slot(Mine(), 0), Tokens, 14);
    Late.BindingKeepsLimitIff(g.book, "a", "w", keys, Amount(10, 0), Slot(Mine(), 0), Tokens, 15);
  }

  predicate NoneIn(g: Gov) { Tight(g) && g.book == Book(map[], map[]) }

  predicate FirstIn(g: Gov) {
    Tight(g) && Shows(g, 1, 5) && At(g.book.usage, Slot(Toward("v"), 0)) == UNUSED
    && g.book.reservations == map["a" := Held("u")]
  }

  predicate BothIn(g: Gov) {
    Tight(g) && Shows(g, 2, 10) && "a" in g.book.reservations && g.book.reservations["a"] == Held("u")
  }

  lemma {:induction false} FirstAdmitted(g: Gov, h: Gov, id: string, upstream: string, keys: seq<Key>)
    requires NoneIn(g) && id == "a" && upstream == "u" && keys == [Mine(), Toward(upstream)]
    requires h == AdmitStep(g, id, Caller(upstream), 0, true, true).0
    ensures FirstIn(h)
  {
    AdmitTaken(g, h, id, upstream, keys);
    FirstTaken(g, h, id, upstream, keys);
  }

  lemma {:induction false} SecondAdmitted(g: Gov, h: Gov, id: string, upstream: string, keys: seq<Key>)
    requires FirstIn(g) && id == "b" && upstream == "v" && keys == [Mine(), Toward(upstream)]
    requires h == AdmitStep(g, id, Caller(upstream), 0, true, true).0
    ensures BothIn(h)
  {
    AdmitTaken(g, h, id, upstream, keys);
    SecondTaken(g, h, id, upstream, keys);
  }

  lemma {:induction false} FirstTaken(g: Gov, h: Gov, id: string, upstream: string, keys: seq<Key>)
    requires NoneIn(g) && id == "a" && upstream == "u" && keys == [Mine(), Toward(upstream)]
    requires Tight(h) && h.book == Taken(g.book, id, upstream, keys)
    ensures FirstIn(h)
  {
    AdmitHeld(g, h, id, upstream, keys, 0, 0);
    assert Toward("v") !in keys;
  }

  lemma {:induction false} SecondTaken(g: Gov, h: Gov, id: string, upstream: string, keys: seq<Key>)
    requires FirstIn(g) && id == "b" && upstream == "v" && keys == [Mine(), Toward(upstream)]
    requires Tight(h) && h.book == Taken(g.book, id, upstream, keys)
    ensures BothIn(h)
  {
    AdmitHeld(g, h, id, upstream, keys, 1, 5);
  }

  lemma {:induction false} BothAdmitted(g0: Gov, g1: Gov, g2: Gov, first: string, second: string, u: string, v: string)
    requires NoneIn(g0) && first == "a" && second == "b" && u == "u" && v == "v"
    requires g1 == AdmitStep(g0, first, Caller(u), 0, true, true).0
    requires g2 == AdmitStep(g1, second, Caller(v), 0, true, true).0
    ensures BothIn(g2)
  {
    FirstAdmitted(g0, g1, first, u, [Mine(), Toward(u)]);
    SecondAdmitted(g1, g2, second, v, [Mine(), Toward(v)]);
  }

  /** Two requests admitted for small upstreams hold all ten tokens of their principal; one of
      them, bound a minute later to an upstream without a budget, reserves ten itself.  The
      principal then shows more than its limit in the first minute, although nothing was settled
      and every step was judged. */
  lemma {:induction false} LateBindingExceedsKeptKey(gs: seq<Gov>)
    requires IsSteadyRun(TIGHT, gs, RUN)
    ensures LimitsFor(TIGHT, Mine()).tokenLimit == 10
    ensures Committed(At(gs[3].book.usage, Slot(Mine(), 0)), Tokens) == 15
    ensures TotalOvershoot(gs, RUN, 3, Slot(Mine(), 0), Tokens) == 0
  {
    TightLimits("u");
    NothingSettled(gs, 3);
    assert gs[1] == Step(gs[0], RUN[0]) && gs[2] == Step(gs[1], RUN[1]) && gs[3] == Step(gs[2], RUN[2]);
    BothAdmitted(gs[0], gs[1], gs[2], "a", "b", "u", "v");
    BindRaises(gs[2], gs[3], [Mine()]);
  }

  lemma {:induction false} NothingSettled(gs: seq<Gov>, n: nat)
    requires n <= |RUN| < |gs| && forall i :: 0 <= i < |RUN| ==> Possible(gs[i], RUN[i])
    ensures TotalOvershoot(gs, RUN, n, Slot(Mine(), 0), Tokens) == 0
  {
    if n > 0 { NothingSettled(gs, n - 1); }
  }
}
