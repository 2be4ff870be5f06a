/** Binary bets: a sorted list of outcomes as a tree that an oracle walks down. */
module Bets {
  import opened Sequences
  import opened Arithmetic
  import opened Wrappers
  import opened Policies
  import opened EffectPaths
  import opened Contexts
  import opened Templates
  import opened CtvHash
  import opened Builders

  datatype Outcome = Outcome(strike: int, template: Template)

  /** The clauses for "below the strike" and "at or above the strike". */
  datatype OraclePair = OraclePair(lt: Clause, gte: Clause)

  datatype BetArguments = BetArguments(amount: Amount, outcomes: seq<Outcome>, oracle: int -> OraclePair,
      cooperate: Clause)

  datatype GenericBet = GenericBet(amount: Amount, outcomes: seq<Outcome>, oracle: map<int, OraclePair>,
      cooperate: Clause)

  // ------------------------------------------------------------------- sorting

  ghost predicate Unique(os: seq<Outcome>) {
    forall i, j :: 0 <= i < j < |os| ==> os[i].strike != os[j].strike
  }

  /** Sorted and without repeated strikes. */
  ghost predicate Increasing(os: seq<Outcome>) {
    forall i, j :: 0 <= i < j < |os| ==> os[i].strike < os[j].strike
  }

  function InsertSorted(o: Outcome, os: seq<Outcome>): seq<Outcome> {
    if os == [] || o.strike <= os[0].strike then [o] + os else [os[0]] + InsertSorted(o, os[1..])
  }

  /** The stable sort by strike. */
  function SortByStrike(os: seq<Outcome>): seq<Outcome> {
    if os == [] then [] else InsertSorted(os[0], SortByStrike(os[1..]))
  }

  ghost predicate HasStrike(os: seq<Outcome>, k: int) {
    exists o :: o in os && o.strike == k
  }

  lemma {:induction false} InsertSortedKeeps(o: Outcome, os: seq<Outcome>)
    ensures multiset(InsertSorted(o, os)) == multiset{o} + multiset(os)
  {
    if os != [] && o.strike > os[0].strike {
      InsertSortedKeeps(o, os[1..]);
      assert os == [os[0]] + os[1..];
    }
  }

  lemma {:induction false} SortKeeps(os: seq<Outcome>)
    ensures multiset(SortByStrike(os)) == multiset(os)
  {
    if os != [] {
      SortKeeps(os[1..]);
      InsertSortedKeeps(os[0], SortByStrike(os[1..]));
      assert os == [os[0]] + os[1..];
    }
  }

  lemma SameMembers(a: seq<Outcome>, c: seq<Outcome>)
    requires multiset(a) == multiset(c)
    ensures forall o :: o in a <==> o in c
  {
    assert forall o :: o in a <==> o in multiset(a);
    assert forall o :: o in c <==> o in multiset(c);
  }

  lemma InsertedMembers(o: Outcome, os: seq<Outcome>)
    ensures forall x :: x in InsertSorted(o, os) <==> x == o || x in os
  {
    InsertSortedKeeps(o, os);
    assert forall x :: x in InsertSorted(o, os) <==> x in multiset(InsertSorted(o, os));
    assert forall x :: x in os <==> x in multiset(os);
  }

  ghost predicate AllAbove(os: seq<Outcome>, k: int) {
    forall o :: o in os ==> k < o.strike
  }

  lemma IncreasingCons(o: Outcome, os: seq<Outcome>)
    requires Increasing(os) && AllAbove(os, o.strike)
    ensures Increasing([o] + os)
  {
    var all := [o] + os;
    forall i, j | 0 <= i < j < |all| ensures all[i].strike < all[j].strike {
      assert all[j] == os[j - 1] && os[j - 1] in os;
    }
  }

  lemma {:induction false} InsertIncreasing(o: Outcome, os: seq<Outcome>)
    requires Increasing(os) && !HasStrike(os, o.strike)
    ensures Increasing(InsertSorted(o, os))
  {
    if os == [] || o.strike <= os[0].strike {
      forall x | x in os ensures o.strike < x.strike {
        var i :| 0 <= i < |os| && os[i] == x;
        assert os[0].strike <= x.strike && x.strike != o.strike;
      }
      IncreasingCons(o, os);
    } else {
      InsertIncreasing(o, os[1..]);
      InsertedMembers(o, os[1..]);
      IncreasingCons(os[0], InsertSorted(o, os[1..]));
    }
  }

  /** Sorting outcomes with distinct strikes leaves them strictly increasing. */
  lemma {:induction false} SortedIsIncreasing(os: seq<Outcome>)
    requires Unique(os)
    ensures Increasing(SortByStrike(os))
  {
    if os != [] {
      SortedIsIncreasing(os[1..]);
      SortKeeps(os[1..]);
      SameMembers(SortByStrike(os[1..]), os[1..]);
      InsertIncreasing(os[0], SortByStrike(os[1..]));
    }
  }

  lemma LeastFirst(a: seq<Outcome>, c: seq<Outcome>)
    requires Increasing(a) && Increasing(c) && multiset(a) == multiset(c) && a != [] && c != []
    ensures a[0] == c[0]
  {
    SameMembers(a, c);
    assert a[0] in c && c[0] in a;
    var i :| 0 <= i < |a| && a[i] == c[0];
    var j :| 0 <= j < |c| && c[j] == a[0];
    assert a[0].strike <= a[i].strike && c[0].strike <= c[j].strike;
  }

  lemma TailsSame(a: seq<Outcome>, c: seq<Outcome>)
    requires multiset(a) == multiset(c) && a != [] && c != [] && a[0] == c[0]
    ensures multiset(a[1..]) == multiset(c[1..])
  {
    assert a == [a[0]] + a[1..] && c == [c[0]] + c[1..];
    assert multiset(a[1..]) == multiset(a) - multiset{a[0]} && multiset(c[1..]) == multiset(c) - multiset{c[0]};
  }

  lemma {:induction false} OneOrder(a: seq<Outcome>, c: seq<Outcome>)
    requires Increasing(a) && Increasing(c) && multiset(a) == multiset(c)
    ensures a == c
    decreases |a|
  {
    SameLength(a, c);
    if a != [] {
      LeastFirst(a, c);
      TailsSame(a, c);
      OneOrder(a[1..], c[1..]);
      assert a == [a[0]] + a[1..] && c == [c[0]] + c[1..];
    }
  }

  /** Whatever is in order and has the same outcomes is what sorting yields. */
  lemma SortsTo(os: seq<Outcome>, sorted: seq<Outcome>)
    requires Unique(os) && Increasing(sorted) && multiset(sorted) == multiset(os)
    ensures SortByStrike(os) == sorted
  {
    SortKeeps(os);
    SortedIsIncreasing(os);
    OneOrder(SortByStrike(os), sorted);
  }

  /** A bet whose outcomes are in order and whose oracle knows their strikes. */
  ghost predicate WellFormed(bet: GenericBet) {
    Increasing(bet.outcomes) && forall i :: 0 <= i < |bet.outcomes| ==> bet.outcomes[i].strike in bet.oracle
  }

  /** Sorts the outcomes and asks the oracle once for each strike. */
  method FromArguments(v: BetArguments) returns (bet: GenericBet)
    ensures bet.amount == v.amount && bet.cooperate == v.cooperate
    ensures bet.outcomes == SortByStrike(v.outcomes) && multiset(bet.outcomes) == multiset(v.outcomes)
    ensures forall k :: k in bet.oracle <==> HasStrike(v.outcomes, k)
    ensures forall k :: k in bet.oracle ==> bet.oracle[k] == v.oracle(k)
    ensures Unique(v.outcomes) ==> WellFormed(bet)
  {
    var outcomes := SortByStrike(v.outcomes);
    SortKeeps(v.outcomes);
    SameMembers(outcomes, v.outcomes);
    var h: map<int, OraclePair> := map[];
    for i := 0 to |outcomes|
      invariant forall k :: k in h <==> HasStrike(outcomes[..i], k)
      invariant forall k :: k in h ==> h[k] == v.oracle(k)
    {
      assert outcomes[..i + 1] == outcomes[..i] + [outcomes[i]];
      h := h[outcomes[i].strike := v.oracle(outcomes[i].strike)];
    }
    assert outcomes[..|outcomes|] == outcomes;
    bet := GenericBet(v.amount, outcomes, h, v.cooperate);
    if Unique(v.outcomes) {
      SortedIsIncreasing(v.outcomes);
      forall i | 0 <= i < |outcomes| ensures outcomes[i].strike in h {
        assert outcomes[i] in outcomes;
      }
    }
  }

  // ----------------------------------------------------------------- the tree

  function Middle(bet: GenericBet): nat {
    |bet.outcomes| / 2
  }

  /** The oracle's clause at the middle strike; indexing aborts if there is none. */
  function Price(bet: GenericBet, gte: bool): Option<Clause> {
    if bet.outcomes == [] || bet.outcomes[Middle(bet)].strike !in bet.oracle then None
    else
      var v := bet.oracle[bet.outcomes[Middle(bet)].strike];
      Some(if gte then v.gte else v.lt)
  }

  /** What a side of a bet pays out: nothing, an outcome, or a smaller bet. */
  datatype Side = Nothing | Settles(template: Template) | Narrows(bet: GenericBet)

  function SideOver(bet: GenericBet, lo: nat, hi: nat): Side
    requires lo <= hi <= |bet.outcomes|
  {
    var sl := bet.outcomes[lo..hi];
    if sl == [] then Nothing
    else if |sl| == 1 then Settles(sl[0].template)
    else Narrows(bet.(outcomes := sl))
  }

  function Upper(bet: GenericBet): Side {
    SideOver(bet, Middle(bet), |bet.outcomes|)
  }

  function Lower(bet: GenericBet): Side {
    SideOver(bet, 0, Middle(bet))
  }

  type BetCompiler = (GenericBet, ContextView) -> Result<Object, CompilationError>

  /** One output pays the whole of `amount` to what a bet compiles to, and nothing goes to fees. */
  ghost predicate PaysOn(t: Template, amount: Amount, sub: GenericBet, path: ReversePath, compile: BetCompiler) {
    && |t.outputs| == |t.tx.output| == 1 && t.guards == [] && t.max == amount
    && compile(sub, ContextView(amount, Child(path, Branch(0)), {})) == Ok(t.outputs[0].contract)
    && t.outputs[0].amount == amount && t.tx.output[0] == TxOut(amount, t.outputs[0].contract.script)
  }

  /** The template of one side; a smaller bet is paid with the whole amount. */
  method RecurseOver(bet: GenericBet, lo: nat, hi: nat, ctx: Context, compile: BetCompiler, sha: Sha256)
    returns (r: Result<Option<Template>, CompilationError>)
    requires lo <= hi <= |bet.outcomes| && ctx.View().derived == {}
    modifies ctx
    ensures SideOver(bet, lo, hi).Nothing? ==> r == Ok(None)
    ensures SideOver(bet, lo, hi).Settles? ==> r == Ok(Some(SideOver(bet, lo, hi).template))
    ensures SideOver(bet, lo, hi).Narrows? && r.Ok? ==>
              && r.value.Some? && old(ctx.View()).funds >= bet.amount
              && PaysOn(r.value.value, bet.amount, SideOver(bet, lo, hi).bet, ctx.path, compile)
    ensures SideOver(bet, lo, hi).Narrows? && old(ctx.View()).funds < bet.amount ==> r == Err(OutOfFunds)
    ensures SideOver(bet, lo, hi).Narrows? && old(ctx.View()).funds >= bet.amount ==>
              match compile(SideOver(bet, lo, hi).bet, ContextView(bet.amount, Child(ctx.path, Branch(0)), {}))
              case Err(e) => r == Err(e)
              case Ok(_) => r.Ok?
  {
    var sl := bet.outcomes[lo..hi];
    if sl == [] {
      return Ok(None);
    }
    if |sl| == 1 {
      return Ok(Some(sl[0].template));
    }
    var builder := new Builder(ctx);
    var sub := bet.(outcomes := sl);
    var added := builder.AddOutput(bet.amount, c => compile(sub, c));
    if added.Err? {
      return Err(added.error);
    }
    var t := builder.ToTemplate(sha);
    assert t.outputs == [] + [t.outputs[0]];
    assert t.tx.output[1..] == [] && TotalValue(t.tx.output) == bet.amount + TotalValue([]);
    r := Ok(Some(t));
  }

  /** Taking these sides one after the other, upper or lower, leads from one bet to another. */
  ghost predicate LeadsTo(bet: GenericBet, upper: seq<bool>, sub: GenericBet)
    decreases |upper|
  {
    if upper == [] then sub == bet
    else
      var side := if upper[0] then Upper(bet) else Lower(bet);
      side.Narrows? && LeadsTo(side.bet, upper[1..], sub)
  }

  /** A smaller bet is for the whole amount, under the same terms, over half of the outcomes. */
  lemma SideKeepsTerms(bet: GenericBet, upper: bool)
    ensures var mid := |bet.outcomes| / 2;
            var outcomes := if upper then bet.outcomes[mid..] else bet.outcomes[..mid];
            (if upper then Upper(bet) else Lower(bet)) ==
              if outcomes == [] then Nothing
              else if |outcomes| == 1 then Settles(outcomes[0].template)
              else Narrows(GenericBet(bet.amount, outcomes, bet.oracle, bet.cooperate))
  {
    var mid := |bet.outcomes| / 2;
    assert bet.outcomes[mid..|bet.outcomes|] == bet.outcomes[mid..] && bet.outcomes[0..mid] == bet.outcomes[..mid];
  }

  /** Whatever sides are taken, the bet reached has the amount, the oracle and the keys of the first. */
  lemma {:induction false} SidesKeepTerms(root: GenericBet, upper: seq<bool>, bet: GenericBet)
    returns (lo: nat, hi: nat)
    requires LeadsTo(root, upper, bet)
    ensures lo <= hi <= |root.outcomes|
    ensures bet == GenericBet(root.amount, root.outcomes[lo..hi], root.oracle, root.cooperate)
    ensures upper != [] ==> hi - lo >= 2
    decreases |upper|
  {
    if upper == [] {
      lo, hi := 0, |root.outcomes|;
      assert root.outcomes[lo..hi] == root.outcomes;
    } else {
      SideKeepsTerms(root, upper[0]);
      var side := if upper[0] then Upper(root) else Lower(root);
      var from := if upper[0] then |root.outcomes| / 2 else 0;
      var l, h := SidesKeepTerms(side.bet, upper[1..], bet);
      lo, hi := from + l, from + h;
      assert side.bet.outcomes[l..h] == root.outcomes[lo..hi];
    }
  }

  /**
   * Every inner transaction of the whole tree, however far down, pays one
   * output: the amount of the first bet, to a bet for just that amount.
   */
  lemma InnerTransactionsPayOn(root: GenericBet, sides: seq<bool>, bet: GenericBet, upper: bool, t: Template,
      path: ReversePath, compile: BetCompiler)
    returns (lo: nat, hi: nat)
    requires LeadsTo(root, sides, bet) && (if upper then Upper(bet) else Lower(bet)).Narrows?
    requires PaysOn(t, bet.amount, (if upper then Upper(bet) else Lower(bet)).bet, path, compile)
    ensures lo + 2 <= hi <= |root.outcomes|
    ensures |t.tx.output| == 1 && t.tx.output[0].value == t.max == root.amount
    ensures PaysOn(t, root.amount, GenericBet(root.amount, root.outcomes[lo..hi], root.oracle, root.cooperate), path,
                   compile)
  {
    var l, h := SidesKeepTerms(root, sides, bet);
    SideKeepsTerms(bet, upper);
    var mid := |bet.outcomes| / 2;
    lo, hi := if upper then l + mid else l, if upper then h else l + mid;
    assert root.outcomes[lo..hi] == if upper then bet.outcomes[mid..] else bet.outcomes[..mid];
  }

  // ------------------------------------------------------------ walking it down

  /** The oracle has attested to price `p`, and to nothing else, at every strike. */
  ghost predicate Attests(oracle: map<int, OraclePair>, p: int, w: World) {
    forall k :: k in oracle ==> (Sat(oracle[k].gte, w) <==> p >= k) && (Sat(oracle[k].lt, w) <==> p < k)
  }

  /** Some sequence of satisfied sides leads from the bet to the template. */
  ghost predicate Pays(bet: GenericBet, w: World, t: Template)
    requires bet.outcomes != []
    decreases |bet.outcomes|
  {
    (Price(bet, true).Some? && Sat(Price(bet, true).value, w) && SidePays(bet, Upper(bet), w, t))
    || (Price(bet, false).Some? && Sat(Price(bet, false).value, w) && SidePays(bet, Lower(bet), w, t))
  }

  ghost predicate SidePays(outer: GenericBet, side: Side, w: World, t: Template)
    requires side == Upper(outer) || side == Lower(outer)
    requires outer.outcomes != []
    decreases |outer.outcomes|, 0
  {
    match side
    case Nothing => false
    case Settles(s) => t == s
    case Narrows(sub) => 0 < |sub.outcomes| < |outer.outcomes| && Pays(sub, w, t)
  }

  /** The index of the greatest strike not above `p`, or of the lowest strike. */
  function Winner(os: seq<Outcome>, p: int): (i: nat)
    requires os != []
    ensures i < |os|
  {
    var n := |os| - 1;
    if n == 0 || os[n].strike <= p then n else Winner(os[..n], p)
  }

  lemma {:induction false} WinnerIsGreatest(os: seq<Outcome>, p: int)
    requires os != [] && Increasing(os)
    ensures var i := Winner(os, p);
            if os[0].strike <= p
            then os[i].strike <= p && forall j :: 0 <= j < |os| && os[j].strike <= p ==> os[j].strike <= os[i].strike
            else i == 0
  {
    var n := |os| - 1;
    if n > 0 && os[n].strike > p {
      WinnerIsGreatest(os[..n], p);
    }
  }

  lemma {:induction false} WinnerUnique(os: seq<Outcome>, p: int, i: nat)
    requires Increasing(os) && i < |os|
    requires os[i].strike <= p || i == 0
    requires i + 1 < |os| ==> os[i + 1].strike > p
    ensures Winner(os, p) == i
  {
    var n := |os| - 1;
    if i < n {
      assert os[n].strike > p;
      WinnerUnique(os[..n], p, i);
    }
  }

  /** The winner lies in the upper half exactly when p reaches the middle. */
  lemma WinnerInHalf(os: seq<Outcome>, p: int)
    requires |os| >= 2 && Increasing(os)
    ensures var mid := |os| / 2;
            os[Winner(os, p)] == if p >= os[mid].strike then os[mid..|os|][Winner(os[mid..|os|], p)]
                else os[0..mid][Winner(os[0..mid], p)]
  {
    var mid := |os| / 2;
    WinnerIsGreatest(os, p);
    var i := Winner(os, p);
    assert i + 1 < |os| ==> os[0].strike < os[i + 1].strike && os[i].strike < os[i + 1].strike;
    if p >= os[mid].strike {
      assert i >= mid;
      WinnerUnique(os[mid..|os|], p, i - mid);
    } else {
      assert i < mid;
      WinnerUnique(os[0..mid], p, i);
    }
  }

  lemma HalvesAreWellFormed(bet: GenericBet)
    requires |bet.outcomes| >= 2 && WellFormed(bet)
    ensures var mid := Middle(bet);
            && 0 < mid < |bet.outcomes|
            && WellFormed(bet.(outcomes := bet.outcomes[mid..])) && WellFormed(bet.(outcomes := bet.outcomes[..mid]))
            && Price(bet, true).Some? && Price(bet, false).Some?
            && Upper(bet) != Nothing && Lower(bet) != Nothing
  {
  }

  /** The oracle's price satisfies the clause of one side of a bet, and only of this one. */
  lemma OneSideSatisfied(bet: GenericBet, p: int, w: World)
    requires bet.outcomes != [] && WellFormed(bet) && Attests(bet.oracle, p, w)
    ensures Price(bet, true).Some? && Price(bet, false).Some?
    ensures Sat(Price(bet, true).value, w) <==> p >= bet.outcomes[Middle(bet)].strike
    ensures Sat(Price(bet, false).value, w) <==> p < bet.outcomes[Middle(bet)].strike
  {
  }

  /** A lone outcome is paid from its strike on; below it nothing is. */
  lemma LoneOutcomePays(bet: GenericBet, p: int, w: World, t: Template)
    requires |bet.outcomes| == 1 && WellFormed(bet) && Attests(bet.oracle, p, w)
    ensures Pays(bet, w, t) <==> t == bet.outcomes[0].template && p >= bet.outcomes[0].strike
  {
    assert bet.outcomes[0..1] == bet.outcomes && Lower(bet) == Nothing;
  }

  /**
   * The bet pays the right outcome: when the oracle has attested to a price,
   * the one outcome that satisfied sides lead to is that of the greatest
   * strike not above the price, or the lowest outcome if there is none. Only
   * a lone outcome is not paid below its strike.
   */
  lemma {:induction false} BetPaysWinner(bet: GenericBet, p: int, w: World, t: Template)
    requires bet.outcomes != [] && WellFormed(bet) && Attests(bet.oracle, p, w)
    ensures Pays(bet, w, t) <==>
              t == bet.outcomes[Winner(bet.outcomes, p)].template
                  && (|bet.outcomes| >= 2 || p >= bet.outcomes[0].strike)
    decreases |bet.outcomes|
  {
    var mid := Middle(bet);
    if |bet.outcomes| == 1 {
      LoneOutcomePays(bet, p, w, t);
    } else {
      OneSideSatisfied(bet, p, w);
      WinnerInHalf(bet.outcomes, p);
      if p >= bet.outcomes[mid].strike {
        SidePaysWinner(bet, mid, |bet.outcomes|, p, w, t);
      } else {
        SidePaysWinner(bet, 0, mid, p, w, t);
      }
    }
  }

  lemma {:induction false} SidePaysWinner(bet: GenericBet, lo: nat, hi: nat, p: int, w: World, t: Template)
    requires |bet.outcomes| >= 2 && WellFormed(bet) && Attests(bet.oracle, p, w)
    requires (lo == Middle(bet) && hi == |bet.outcomes|) || (lo == 0 && hi == Middle(bet))
    ensures SidePays(bet, SideOver(bet, lo, hi), w, t)
            <==> t == bet.outcomes[lo..hi][Winner(bet.outcomes[lo..hi], p)].template
    decreases |bet.outcomes|, 0
  {
    var sl := bet.outcomes[lo..hi];
    HalvesAreWellFormed(bet);
    if |sl| >= 2 {
      BetPaysWinner(bet.(outcomes := sl), p, w, t);
    }
  }

  /** How many transactions lie between a bet and its farthest outcome. */
  ghost function Rounds(bet: GenericBet): nat
    requires |bet.outcomes| >= 2
    decreases |bet.outcomes|
  {
    1 + (var u, l := SideRounds(bet, Upper(bet)), SideRounds(bet, Lower(bet)); if u >= l then u else l)
  }

  ghost function SideRounds(outer: GenericBet, side: Side): nat
    requires side == Upper(outer) || side == Lower(outer)
    requires |outer.outcomes| >= 2
    decreases |outer.outcomes|, 0
  {
    if side.Narrows? && |side.bet.outcomes| < |outer.outcomes| then Rounds(side.bet) else 0
  }

  /** A bet over n outcomes is settled within the ceiling of log2 n rounds. */
  lemma {:induction false} RoundsBound(bet: GenericBet)
    requires |bet.outcomes| >= 2
    ensures Rounds(bet) <= CeilLog2(|bet.outcomes|)
    decreases |bet.outcomes|
  {
    var n := |bet.outcomes|;
    var upper, lower := Upper(bet), Lower(bet);
    assert CeilLog2(n) == 1 + CeilLog2((n + 1) / 2);
    if upper.Narrows? {
      RoundsBound(upper.bet);
      CeilLog2Monotone(|upper.bet.outcomes|, (n + 1) / 2);
    }
    if lower.Narrows? {
      RoundsBound(lower.bet);
      CeilLog2Monotone(|lower.bet.outcomes|, (n + 1) / 2);
    }
  }

  /** With a single outcome the lower side proposes nothing at all. */
  lemma LoneOutcomeHasNoLowerSide(bet: GenericBet)
    requires bet.outcomes != []
    ensures Lower(bet) == Nothing <==> |bet.outcomes| == 1
    ensures Upper(bet) != Nothing
  {
  }
}
