/**
 * Risk reversals: a grid of strikes with the payouts that keep a position's
 * purchasing power flat, handed to a binary bet, and which rung of the grid
 * the bet pays at each attested price.
 */
module RiskReversals {
  import opened Arithmetic
  import opened Wrappers
  import opened Bytes
  import opened Policies
  import opened EffectPaths
  import opened Contexts
  import opened Templates
  import opened CtvHash
  import opened Builders
  import opened Bets

  const ONE_UNIT: nat := 10_000

  /** A fraction of the current price. */
  datatype Fraction = Fraction(num: nat, den: nat)

  datatype Terms = Terms(amount: Amount, current: nat, below: Fraction, above: Fraction)

  /** The program's types: all of these are u64. */
  ghost predicate InRange(v: Terms) {
    v.amount < TWO_64 && v.current < TWO_64 && v.below.num < TWO_64 && v.below.den < TWO_64
    && v.above.num < TWO_64 && v.above.den < TWO_64
  }

  // ------------------------------------------------- u64 arithmetic that wraps

  function Wrap(n: int): nat {
    n % TWO_64
  }

  /** The price times a fraction's numerator. */
  function Scaled(price: nat, f: Fraction): nat {
    price * f.num
  }

  /** A fraction of the price, in wrapping arithmetic. */
  function Share(price: nat, f: Fraction): nat
    requires f.den > 0
  {
    Wrap(Scaled(price, f)) / f.den
  }

  /** The position's worth: its amount at the current price. */
  function Worth(v: Terms): nat {
    v.amount * v.current
  }

  /** The lower end of the grid: rounded down to a whole unit. */
  function Bottom(v: Terms): nat
    requires v.below.den > 0
  {
    Wrap(v.current - Share(v.current, v.below)) / ONE_UNIT * ONE_UNIT
  }

  /** The upper end of the grid: rounded up to a whole unit. */
  function Top(v: Terms): nat
    requires v.above.den > 0
  {
    Wrap(Wrap(Wrap(v.current + Share(v.current, v.above)) + ONE_UNIT) - 1) / ONE_UNIT * ONE_UNIT
  }

  /** A strike is stored as an i64. */
  function AsI64(n: nat): int {
    if n < TWO_63 then n else n - TWO_64
  }

  // ------------------------------------------------------------------ the grid

  /** One line of the schedule: the user's and the operator's share at a strike. */
  datatype Rung = Rung(strike: nat, profit: Amount, refund: int)

  function RungAt(strike: nat, value: nat, locked: Amount): Rung
    requires strike > 0
  {
    Rung(strike, value / strike, locked - value / strike)
  }

  /** The rungs from `strike` up to and including `top`. */
  function Rungs(strike: nat, top: nat, value: nat, locked: Amount): seq<Rung>
    requires strike > 0
    decreases top + ONE_UNIT - strike
  {
    if strike > top then [] else [RungAt(strike, value, locked)] + Rungs(strike + ONE_UNIT, top, value, locked)
  }

  /** At its strike a rung shares out the locked amount, to the exact quotient. */
  ghost predicate SoundRung(rung: Rung, strike: nat, value: nat, locked: Amount) {
    && rung.strike == strike
    && rung.refund >= 0 && rung.profit + rung.refund == locked
    && strike * rung.profit <= value < strike * (rung.profit + 1)
  }

  ghost predicate SoundEnds(rungs: seq<Rung>, bottom: nat, top: nat, locked: Amount) {
    && bottom <= top && |rungs| == (top - bottom) / ONE_UNIT + 1
    && rungs[0].strike == bottom && rungs[|rungs| - 1].strike == top
    && rungs[0].profit == locked && rungs[0].refund == 0
  }

  ghost predicate ProfitsFall(rungs: seq<Rung>) {
    forall i, j :: 0 <= i < j < |rungs| ==> rungs[i].profit >= rungs[j].profit
  }

  /** What the program promises of a schedule. */
  ghost predicate SoundSchedule(rungs: seq<Rung>, bottom: nat, current: nat, top: nat, value: nat, locked: Amount) {
    && 0 < bottom <= current <= top
    && SoundEnds(rungs, bottom, top, locked)
    && (forall i :: 0 <= i < |rungs| ==> SoundRung(rungs[i], bottom + i * ONE_UNIT, value, locked))
    && ProfitsFall(rungs)
  }

  lemma {:induction false} RungsCount(strike: nat, top: nat, value: nat, locked: Amount, n: nat)
    requires 0 < strike && top == strike + n * ONE_UNIT
    ensures |Rungs(strike, top, value, locked)| == n + 1
    decreases n
  {
    if n == 0 {
      assert Rungs(strike + ONE_UNIT, top, value, locked) == [];
    } else {
      RungsCount(strike + ONE_UNIT, top, value, locked, n - 1);
    }
  }

  lemma {:induction false} RungsAt(strike: nat, top: nat, value: nat, locked: Amount, i: nat)
    requires 0 < strike && i < |Rungs(strike, top, value, locked)|
    ensures Rungs(strike, top, value, locked)[i] == RungAt(strike + i * ONE_UNIT, value, locked)
    decreases i
  {
    if i > 0 {
      RungsAt(strike + ONE_UNIT, top, value, locked, i - 1);
    }
  }

  lemma DivisionBounds(value: nat, strike: nat)
    requires strike > 0
    ensures strike * (value / strike) <= value < strike * (value / strike + 1)
  {
    var q := value / strike;
    assert value == strike * q + value % strike;
    assert strike * (q + 1) == strike * q + strike;
  }

  /** A greater strike never pays the user more. */
  lemma DivisionAntitone(value: nat, a: nat, b: nat)
    requires 0 < a <= b
    ensures value / b <= value / a
  {
    var p, q := value / a, value / b;
    DivisionBounds(value, a);
    DivisionBounds(value, b);
    MulLe(a, b, q);
    assert a * q == q * a && b * q == q * b;
    MulLt(q, p + 1, a);
  }

  lemma RungIsSound(bottom: nat, top: nat, value: nat, i: nat)
    requires 0 < bottom && i < |Rungs(bottom, top, value, value / bottom)|
    ensures SoundRung(Rungs(bottom, top, value, value / bottom)[i], bottom + i * ONE_UNIT, value, value / bottom)
  {
    RungsAt(bottom, top, value, value / bottom, i);
    DivisionBounds(value, bottom + i * ONE_UNIT);
    DivisionAntitone(value, bottom, bottom + i * ONE_UNIT);
  }

  lemma ProfitsNeverGrow(bottom: nat, top: nat, value: nat)
    requires 0 < bottom
    ensures ProfitsFall(Rungs(bottom, top, value, value / bottom))
  {
    var rungs := Rungs(bottom, top, value, value / bottom);
    forall i, j | 0 <= i < j < |rungs| ensures rungs[i].profit >= rungs[j].profit {
      RungsAt(bottom, top, value, value / bottom, i);
      RungsAt(bottom, top, value, value / bottom, j);
      DivisionAntitone(value, bottom + i * ONE_UNIT, bottom + j * ONE_UNIT);
    }
  }

  lemma EndsAreSound(bottom: nat, top: nat, value: nat)
    requires 0 < bottom <= top && bottom % ONE_UNIT == 0 && top % ONE_UNIT == 0
    ensures SoundEnds(Rungs(bottom, top, value, value / bottom), bottom, top, value / bottom)
  {
    var n := (top - bottom) / ONE_UNIT;
    assert top == bottom + n * ONE_UNIT;
    RungsCount(bottom, top, value, value / bottom, n);
    RungsAt(bottom, top, value, value / bottom, 0);
    RungsAt(bottom, top, value, value / bottom, n);
  }

  /** Any grid whose ends are whole units around the price makes a sound schedule. */
  lemma ScheduleIsSound(bottom: nat, current: nat, top: nat, value: nat)
    requires 0 < bottom <= current <= top && bottom % ONE_UNIT == 0 && top % ONE_UNIT == 0
    ensures SoundSchedule(Rungs(bottom, top, value, value / bottom), bottom, current, top, value, value / bottom)
  {
    var rungs := Rungs(bottom, top, value, value / bottom);
    EndsAreSound(bottom, top, value);
    ProfitsNeverGrow(bottom, top, value);
    forall i | 0 <= i < |rungs| ensures SoundRung(rungs[i], bottom + i * ONE_UNIT, value, value / bottom) {
      RungIsSound(bottom, top, value, i);
    }
  }

  lemma RoundedToUnits(n: nat)
    ensures n / ONE_UNIT * ONE_UNIT % ONE_UNIT == 0
    ensures n / ONE_UNIT * ONE_UNIT <= n < n / ONE_UNIT * ONE_UNIT + ONE_UNIT
  {
    assert n / ONE_UNIT * ONE_UNIT + n % ONE_UNIT == n;
  }

  // ------------------------------------------------------ when nothing overflows

  /** No intermediate result of the grid's ends leaves the range of u64. */
  ghost predicate NoOverflow(v: Terms)
    requires v.above.den > 0
  {
    && Scaled(v.current, v.below) < TWO_64
    && Scaled(v.current, v.above) < TWO_64
    && v.current + Share(v.current, v.above) + ONE_UNIT < TWO_64
  }

  lemma WrapFits(n: nat)
    requires n < TWO_64
    ensures Wrap(n) == n
  {
  }

  /** A fraction of at most one cuts off no more than there is. */
  lemma CutFits(current: nat, f: Fraction)
    requires f.den > 0 && f.num <= f.den && Scaled(current, f) < TWO_64
    ensures Share(current, f) <= current
  {
    var cut := Scaled(current, f) / f.den;
    WrapFits(Scaled(current, f));
    DivisionBounds(Scaled(current, f), f.den);
    MulLe(f.num, f.den, current);
    assert f.den * (current + 1) == current * f.den + f.den;
    MulLt(cut, current + 1, f.den);
  }

  lemma BottomBelow(current: nat, share: nat)
    requires share <= current < TWO_64
    ensures Wrap(current - share) / ONE_UNIT * ONE_UNIT <= current
  {
    WrapFits(current - share);
    RoundedToUnits(current - share);
  }

  lemma TopAbove(current: nat, share: nat)
    requires current + share + ONE_UNIT < TWO_64
    ensures current <= Wrap(Wrap(Wrap(current + share) + ONE_UNIT) - 1) / ONE_UNIT * ONE_UNIT
  {
    WrapFits(current + share);
    WrapFits(current + share + ONE_UNIT);
    WrapFits(current + share + ONE_UNIT - 1);
    RoundedToUnits(current + share + ONE_UNIT - 1);
  }

  /** Where nothing wraps, the lower end is the whole unit at or below the price less its fraction. */
  lemma BottomIsFloor(v: Terms)
    requires v.current < TWO_64 && v.below.den > 0 && v.current * v.below.num < TWO_64
    requires v.current * v.below.num / v.below.den <= v.current
    ensures Bottom(v) % ONE_UNIT == 0
    ensures Bottom(v) <= v.current - v.current * v.below.num / v.below.den < Bottom(v) + ONE_UNIT
  {
    var share := v.current * v.below.num / v.below.den;
    WrapFits(v.current * v.below.num);
    WrapFits(v.current - share);
    RoundedToUnits(v.current - share);
  }

  /** Where nothing wraps, the upper end is the whole unit at or above the price and its fraction. */
  lemma TopIsCeiling(v: Terms)
    requires v.above.den > 0 && v.current * v.above.num < TWO_64
    requires v.current + v.current * v.above.num / v.above.den + ONE_UNIT < TWO_64
    ensures Top(v) % ONE_UNIT == 0
    ensures v.current + v.current * v.above.num / v.above.den <= Top(v)
    ensures Top(v) < v.current + v.current * v.above.num / v.above.den + ONE_UNIT
  {
    var share := v.current * v.above.num / v.above.den;
    WrapFits(v.current * v.above.num);
    WrapFits(v.current + share);
    WrapFits(v.current + share + ONE_UNIT);
    WrapFits(v.current + share + ONE_UNIT - 1);
    RoundedToUnits(v.current + share + ONE_UNIT - 1);
  }

  /** With a lower fraction of at most one, the ends enclose the price. */
  lemma EndsEncloseCurrent(v: Terms)
    requires InRange(v) && v.below.den > 0 && v.above.den > 0 && v.below.num <= v.below.den && NoOverflow(v)
    ensures Bottom(v) <= v.current <= Top(v)
  {
    BottomEncloses(v);
    TopEncloses(v);
  }

  lemma BottomEncloses(v: Terms)
    requires InRange(v) && v.below.den > 0 && v.below.num <= v.below.den && Scaled(v.current, v.below) < TWO_64
    ensures Bottom(v) <= v.current
  {
    CutFits(v.current, v.below);
    BottomBelow(v.current, Share(v.current, v.below));
  }

  lemma TopEncloses(v: Terms)
    requires v.above.den > 0 && v.current + Share(v.current, v.above) + ONE_UNIT < TWO_64
    ensures v.current <= Top(v)
  {
    TopAbove(v.current, Share(v.current, v.above));
  }

  // --------------------------------------------------------- building the bet

  /** How the two parties are paid: the contract that receives an amount. */
  datatype Parties = Parties(user: Amount -> Compilable, operator: Amount -> Compilable, oracle: int -> OraclePair,
      cooperate: Clause)

  /** A template pays a rung: the user's share first, then the operator's. */
  ghost predicate PaysRung(t: Template, rung: Rung, strikes: ReversePath, parties: Parties) {
    && rung.refund >= 0
    && var ctx := Child(strikes, Branch(rung.strike));
    && var user := parties.user(rung.profit)(ContextView(rung.profit, Child(ctx, Branch(0)), {}));
    && var operator := parties.operator(rung.refund)(ContextView(rung.refund, Child(ctx, Branch(1)), {}));
    && user.Ok? && operator.Ok?
    && t.outputs == [Output(rung.profit, user.value), Output(rung.refund, operator.value)]
    && t.max == rung.profit + rung.refund && t.guards == []
  }

  /** Whether the settlement of a rung can be built with so much to spend. */
  ghost predicate Buildable(rung: Rung, funds: Amount, strikes: ReversePath, parties: Parties) {
    && rung.refund >= 0 && rung.profit + rung.refund <= funds
    && var ctx := Child(strikes, Branch(rung.strike));
    && parties.user(rung.profit)(ContextView(rung.profit, Child(ctx, Branch(0)), {})).Ok?
    && parties.operator(rung.refund)(ContextView(rung.refund, Child(ctx, Branch(1)), {})).Ok?
  }

  /** Builds the settlement of one strike. */
  method BuildRung(strikes: Context, rung: Rung, parties: Parties,
      sha: Sha256) returns (r: Result<Template, CompilationError>)
    requires rung.refund >= 0
    modifies strikes`alreadyDerived
    ensures r.Ok? ==> PaysRung(r.value, rung, strikes.path, parties)
    ensures r.Ok? ==> strikes.alreadyDerived == old(strikes.alreadyDerived) + {Branch(rung.strike)}
    ensures r.Ok? <==>
              && Branch(rung.strike) !in old(strikes.alreadyDerived)
              && Buildable(rung, strikes.availableFunds, strikes.path, parties)
  {
    var ctx := strikes.Derive(Branch(rung.strike));
    if ctx.Err? {
      return Err(ctx.error);
    }
    var builder := new Builder(ctx.value);
    ghost var b0 := builder.View();
    var user := builder.AddOutput(rung.profit, parties.user(rung.profit));
    if user.Err? {
      return Err(user.error);
    }
    ghost var b1 := builder.View();
    assert b1 == OutputAdded(b0, rung.profit, parties.user(rung.profit)).value;
    var operator := builder.AddOutput(rung.refund, parties.operator(rung.refund));
    if operator.Err? {
      return Err(operator.error);
    }
    var t := builder.ToTemplate(sha);
    TwoOutputs(b0, rung, parties, sha);
    r := Ok(t);
  }

  lemma TwoOutputs(b0: BuilderView, rung: Rung, parties: Parties, sha: Sha256)
    requires rung.refund >= 0 && b0 == NewBuilder(b0.ctx) && b0.ctx.derived == {}
    requires OutputAdded(b0, rung.profit, parties.user(rung.profit)).Ok?
    requires OutputAdded(OutputAdded(b0, rung.profit, parties.user(rung.profit)).value, rung.refund,
        parties.operator(rung.refund)).Ok?
    ensures var b2 := OutputAdded(OutputAdded(b0, rung.profit, parties.user(rung.profit)).value, rung.refund,
        parties.operator(rung.refund)).value;
            var user := parties.user(rung.profit)(ContextView(rung.profit, Child(b0.ctx.path, Branch(0)), {}));
            var operator := parties.operator(rung.refund)(ContextView(rung.refund, Child(b0.ctx.path, Branch(1)), {}));
            && user.Ok? && operator.Ok?
            && TemplateOf(b2, sha).outputs == [Output(rung.profit, user.value), Output(rung.refund, operator.value)]
            && TemplateOf(b2, sha).max == rung.profit + rung.refund <= b0.ctx.funds
            && TemplateOf(b2, sha).guards == []
  {
    var b1 := OutputAdded(b0, rung.profit, parties.user(rung.profit)).value;
    var b2 := OutputAdded(b1, rung.refund, parties.operator(rung.refund)).value;
    assert b1.outputs == [] + [b1.outputs[0]] && |b1.outputs| == 1;
    TotalValueOfOutputs(b2.outputs);
    assert b2.outputs[1..] == [b2.outputs[1]] && b2.outputs[1..][1..] == [];
    assert TotalAmount(b2.outputs) == b2.outputs[0].amount + TotalAmount(b2.outputs[1..]);
    assert TotalAmount(b2.outputs[1..]) == b2.outputs[1].amount + TotalAmount([]);
  }

  /** The outcomes settle the rungs, one by one, each in its own context. */
  ghost predicate Settles(outcomes: seq<Outcome>, rungs: seq<Rung>, strikes: ReversePath, parties: Parties) {
    && |outcomes| == |rungs|
    && forall i :: 0 <= i < |rungs| ==>
         outcomes[i].strike == AsI64(rungs[i].strike) && PaysRung(outcomes[i].template, rungs[i], strikes, parties)
  }

  ghost predicate AllBuildable(rungs: seq<Rung>, funds: Amount, strikes: ReversePath, parties: Parties) {
    forall i :: 0 <= i < |rungs| ==> Buildable(rungs[i], funds, strikes, parties)
  }

  /** Builds the settlements from `bottom` to `top`, a unit at a time. */
  method BuildSchedule(strikes: Context, bottom: nat, top: nat, value: nat, locked: Amount, parties: Parties,
      sha: Sha256)
    returns (r: Result<seq<Outcome>, CompilationError>)
    requires 0 < bottom && locked == value / bottom && strikes.alreadyDerived == {}
    modifies strikes`alreadyDerived
    ensures r.Ok? ==> Settles(r.value, Rungs(bottom, top, value, locked), strikes.path, parties)
    ensures r.Ok? && bottom <= top ==> locked <= strikes.availableFunds
    ensures r.Ok? <==> AllBuildable(Rungs(bottom, top, value, locked), strikes.availableFunds, strikes.path, parties)
  {
    var outcomes: seq<Outcome> := [];
    var strike := bottom;
    ghost var all := Rungs(bottom, top, value, locked);
    ghost var i: nat := 0;
    while strike <= top
      invariant i <= |all| && strike == bottom + i * ONE_UNIT
      invariant all[i..] == Rungs(strike, top, value, locked)
      invariant Settles(outcomes, all[..i], strikes.path, parties)
      invariant i > 0 ==> locked <= strikes.availableFunds
      invariant forall f :: f in strikes.alreadyDerived ==> f.Branch? && f.index < strike
      invariant AllBuildable(all[..i], strikes.availableFunds, strikes.path, parties)
      decreases top + ONE_UNIT - strike
    {
      DivisionAntitone(value, bottom, strike);
      var profit := value / strike;
      var refund := locked - profit;
      assert all[i] == all[i..][0] == Rung(strike, profit, refund);
      var t := BuildRung(strikes, Rung(strike, profit, refund), parties, sha);
      if t.Err? {
        return Err(t.error);
      }
      outcomes := outcomes + [Outcome(AsI64(strike), t.value)];
      assert all[..i + 1] == all[..i] + [all[i]];
      assert all[i + 1..] == all[i..][1..];
      strike, i := strike + ONE_UNIT, i + 1;
    }
    assert all[..i] == all by {
      assert all[i..] == [];
    }
    r := Ok(outcomes);
  }

  /** What the conversion of terms into the arguments of a bet must yield. */
  ghost predicate Converted(args: BetArguments, v: Terms, funds: Amount, path: ReversePath, parties: Parties) {
    && v.below.den > 0 && v.above.den > 0
    && var (bottom, top, value) := (Bottom(v), Top(v), Worth(v));
    && 0 < bottom <= v.current <= top && value <= MAX_AMOUNT
    && args.amount == value / bottom <= funds
    && SoundSchedule(Rungs(bottom, top, value, value / bottom), bottom, v.current, top, value, value / bottom)
    && Settles(args.outcomes, Rungs(bottom, top, value, value / bottom), Child(path, Named("strike")), parties)
    && args.oracle == parties.oracle && args.cooperate == parties.cooperate
  }

  lemma ConvertedSoundly(args: BetArguments, v: Terms, funds: Amount, path: ReversePath, parties: Parties)
    requires v.below.den > 0 && v.above.den > 0 && 0 < Bottom(v) <= v.current <= Top(v) && Worth(v) <= MAX_AMOUNT
    requires args.amount == Worth(v) / Bottom(v) <= funds
    requires Settles(args.outcomes, Rungs(Bottom(v), Top(v), Worth(v), args.amount), Child(path, Named("strike")),
        parties)
    requires args.oracle == parties.oracle && args.cooperate == parties.cooperate
    ensures Converted(args, v, funds, path, parties)
  {
    GridEndsAreUnits(v);
    ScheduleIsSound(Bottom(v), v.current, Top(v), Worth(v));
  }

  /** The terms for which a schedule can be made at all. */
  predicate Convertible(v: Terms) {
    v.below.den > 0 && v.above.den > 0 && Worth(v) <= MAX_AMOUNT && 0 < Bottom(v) <= v.current <= Top(v)
  }

  /** The conversion of a risk reversal into the arguments of a bet. */
  method ToBetArguments(v: Terms, ctx: Context, parties: Parties,
      sha: Sha256) returns (r: Result<BetArguments, CompilationError>)
    requires InRange(v)
    modifies ctx`alreadyDerived
    ensures r.Ok? <==>
              && Convertible(v) && Named("strike") !in old(ctx.alreadyDerived)
              && var rungs := Rungs(Bottom(v), Top(v), Worth(v), Quotient(Worth(v), Bottom(v)));
              && AllBuildable(rungs, ctx.availableFunds, Child(ctx.path, Named("strike")), parties)
    ensures v.below.den > 0 && v.above.den > 0 && Worth(v) <= MAX_AMOUNT && 0 < Bottom(v) && !Convertible(v)
            ==> r == Err(TerminateCompilation)
    ensures r.Ok? ==> Converted(r.value, v, ctx.availableFunds, ctx.path, parties)
  {
    if v.below.den == 0 || v.above.den == 0 {
      return Err(Panic("attempt to divide by zero"));
    }
    var bottom, top := Bottom(v), Top(v);
    var value := Worth(v);
    if value > MAX_AMOUNT {
      return Err(Panic("Amount multiplication error"));
    }
    if bottom == 0 {
      return Err(Panic("Amount division error"));
    }
    var locked := Quotient(value, bottom);
    if bottom > v.current || top < v.current {
      return Err(TerminateCompilation);
    }
    var strikes := ctx.Derive(Named("strike"));
    if strikes.Err? {
      return Err(strikes.error);
    }
    var outcomes := BuildSchedule(strikes.value, bottom, top, value, locked, parties, sha);
    if outcomes.Err? {
      return Err(outcomes.error);
    }
    var args := BetArguments(locked, outcomes.value, parties.oracle, parties.cooperate);
    ConvertedSoundly(args, v, ctx.availableFunds, ctx.path, parties);
    r := Ok(args);
  }

  lemma GridEndsAreUnits(v: Terms)
    requires v.below.den > 0 && v.above.den > 0
    ensures Bottom(v) % ONE_UNIT == 0 && Top(v) % ONE_UNIT == 0 && Top(v) < TWO_64
  {
    RoundedToUnits(Wrap(v.current - Share(v.current, v.below)));
    RoundedToUnits(Wrap(Wrap(Wrap(v.current + Share(v.current, v.above)) + ONE_UNIT) - 1));
  }

  /**
   * What the arguments of a converted bet come to: at its strike, each outcome
   * pays the user what the amount is worth there, rounded down, and the
   * operator the rest of what is locked, which is the worth at the lower end.
   */
  lemma ConversionKeepsWorth(args: BetArguments, v: Terms, funds: Amount, path: ReversePath, parties: Parties, i: nat)
    requires v.below.den > 0 && v.above.den > 0 && 0 < Bottom(v) <= v.current <= Top(v)
    requires Converted(args, v, funds, path, parties) && i < |args.outcomes|
    ensures var t, strike, worth := args.outcomes[i].template, Bottom(v) + i * ONE_UNIT, v.amount * v.current;
            && args.outcomes[i].strike == AsI64(strike)
            && |t.outputs| == 2 && t.max == t.outputs[0].amount + t.outputs[1].amount == args.amount
            && strike * t.outputs[0].amount <= worth < strike * (t.outputs[0].amount + 1)
    ensures Bottom(v) * args.amount <= v.amount * v.current < Bottom(v) * (args.amount + 1)
    ensures |args.outcomes| == (Top(v) - Bottom(v)) / ONE_UNIT + 1
  {
    var rungs := Rungs(Bottom(v), Top(v), Worth(v), Worth(v) / Bottom(v));
    assert SoundRung(rungs[i], Bottom(v) + i * ONE_UNIT, v.amount * v.current, args.amount);
    assert SoundRung(rungs[0], Bottom(v) + 0 * ONE_UNIT, v.amount * v.current, args.amount);
    assert PaysRung(args.outcomes[i].template, rungs[i], Child(path, Named("strike")), parties);
  }

  // ---------------------------------------------------------------- end to end

  /** The rung that a price falls on, of n + 1: the last strike not above it, or the first. */
  function RungFor(p: int, bottom: int, n: nat): (i: nat)
    ensures i <= n
  {
    if p < bottom then 0 else if (p - bottom) / ONE_UNIT >= n then n else (p - bottom) / ONE_UNIT
  }

  lemma RungForIsLast(p: int, bottom: int, n: nat)
    ensures var i := RungFor(p, bottom, n);
            (bottom + i * ONE_UNIT <= p || i == 0) && (i < n ==> bottom + (i + 1) * ONE_UNIT > p)
  {
  }

  /** A strike keeps its value as an i64 exactly below 2^63; above that it turns negative. */
  lemma StrikeAsI64(n: nat)
    requires n < TWO_64
    ensures AsI64(n) == n <==> n < TWO_63
    ensures AsI64(n) < 0 <==> n >= TWO_63
  {
  }

  /** How many strikes of a schedule of n + 1, the lowest ones, keep their values. */
  function Unwrapped(bottom: nat, n: nat): (m: nat)
    ensures m <= n + 1
  {
    if bottom + n * ONE_UNIT < TWO_63 then n + 1
    else if bottom >= TWO_63 then 0
    else (TWO_63 - bottom + ONE_UNIT - 1) / ONE_UNIT
  }

  lemma StrikeOnGrid(bottom: nat, n: nat, i: nat)
    requires i <= n && bottom + n * ONE_UNIT < TWO_64
    ensures AsI64(bottom + i * ONE_UNIT) == bottom + i * ONE_UNIT - if i < Unwrapped(bottom, n) then 0 else TWO_64
  {
  }

  /**
   * The rung that is paid at a price. The strikes that turned negative are the
   * lowest outcomes of the bet, and a price below all others falls on these.
   */
  function RungPaid(p: int, bottom: nat, n: nat): (i: nat)
    ensures i <= n
  {
    var m := Unwrapped(bottom, n);
    if m == n + 1 || (m > 0 && p >= bottom) then RungFor(p, bottom, m - 1)
    else m + RungFor(p, bottom + m * ONE_UNIT - TWO_64, n - m)
  }

  /** Outcome i has the strike of rung i as an i64. */
  ghost predicate OnGrid(os: seq<Outcome>, bottom: nat) {
    && os != [] && bottom + (|os| - 1) * ONE_UNIT < TWO_64
    && forall i :: 0 <= i < |os| ==> os[i].strike == AsI64(bottom + i * ONE_UNIT)
  }

  lemma SettledOnGrid(outcomes: seq<Outcome>, rungs: seq<Rung>, strikes: ReversePath, parties: Parties,
      bottom: nat, current: nat, top: nat, value: nat, locked: Amount)
    requires SoundSchedule(rungs, bottom, current, top, value, locked) && top < TWO_64
    requires Settles(outcomes, rungs, strikes, parties)
    ensures OnGrid(outcomes, bottom) && top == bottom + (|outcomes| - 1) * ONE_UNIT
  {
    var n := |rungs| - 1;
    assert SoundRung(rungs[n], bottom + n * ONE_UNIT, value, locked);
    forall i | 0 <= i < |outcomes| ensures outcomes[i].strike == AsI64(bottom + i * ONE_UNIT) {
      assert SoundRung(rungs[i], bottom + i * ONE_UNIT, value, locked);
    }
  }

  /** The outcomes of a schedule are in order unless its strikes cross 2^63. */
  lemma StrikesKeepOrderIff(outcomes: seq<Outcome>, rungs: seq<Rung>, strikes: ReversePath, parties: Parties,
      bottom: nat, current: nat, top: nat, value: nat, locked: Amount)
    requires SoundSchedule(rungs, bottom, current, top, value, locked) && top < TWO_64
    requires Settles(outcomes, rungs, strikes, parties)
    ensures Increasing(outcomes) <==> top < TWO_63 || bottom >= TWO_63
  {
    var n := |outcomes| - 1;
    SettledOnGrid(outcomes, rungs, strikes, parties, bottom, current, top, value, locked);
    forall i | 0 <= i <= n ensures
        outcomes[i].strike == bottom + i * ONE_UNIT - if i < Unwrapped(bottom, n) then 0 else TWO_64 {
      StrikeOnGrid(bottom, n, i);
    }
    if bottom < TWO_63 <= top {
      assert outcomes[0].strike > outcomes[n].strike;
    }
  }

  /** The outcomes in order: first those whose strikes turned negative. */
  function Rotated(os: seq<Outcome>, m: nat): (r: seq<Outcome>)
    requires m <= |os|
    ensures |r| == |os|
    ensures forall i :: 0 <= i < |r| ==> r[i] == os[if i < |os| - m then m + i else i - (|os| - m)]
  {
    os[m..] + os[..m]
  }

  lemma RotatedKeeps(os: seq<Outcome>, m: nat)
    requires m <= |os|
    ensures multiset(Rotated(os, m)) == multiset(os)
  {
    assert os == os[..m] + os[m..];
  }

  lemma GridUnique(os: seq<Outcome>, bottom: nat)
    requires OnGrid(os, bottom)
    ensures Unique(os)
  {
    forall i, j | 0 <= i < j < |os| ensures os[i].strike != os[j].strike {
      StrikeOnGrid(bottom, |os| - 1, i);
      StrikeOnGrid(bottom, |os| - 1, j);
    }
  }

  /** The i-th strike in order: those that turned negative come first. */
  function StrikeInOrder(bottom: nat, n: nat, i: nat): int {
    var m := Unwrapped(bottom, n);
    if i < n + 1 - m then bottom + (m + i) * ONE_UNIT - TWO_64 else bottom + (i - (n + 1 - m)) * ONE_UNIT
  }

  lemma RotatedStrike(os: seq<Outcome>, bottom: nat, i: nat)
    requires OnGrid(os, bottom) && i < |os|
    ensures Rotated(os, Unwrapped(bottom, |os| - 1))[i].strike == StrikeInOrder(bottom, |os| - 1, i)
  {
    var m := Unwrapped(bottom, |os| - 1);
    StrikeOnGrid(bottom, |os| - 1, if i < |os| - m then m + i else i - (|os| - m));
  }

  lemma RotatedIncreasing(os: seq<Outcome>, bottom: nat)
    requires OnGrid(os, bottom)
    ensures Increasing(Rotated(os, Unwrapped(bottom, |os| - 1)))
  {
    var sorted := Rotated(os, Unwrapped(bottom, |os| - 1));
    forall i, j | 0 <= i < j < |sorted| ensures sorted[i].strike < sorted[j].strike {
      RotatedStrike(os, bottom, i);
      RotatedStrike(os, bottom, j);
    }
  }

  lemma GridSorted(os: seq<Outcome>, bottom: nat)
    requires OnGrid(os, bottom)
    ensures SortByStrike(os) == Rotated(os, Unwrapped(bottom, |os| - 1))
  {
    GridUnique(os, bottom);
    RotatedIncreasing(os, bottom);
    RotatedKeeps(os, Unwrapped(bottom, |os| - 1));
    SortsTo(os, Rotated(os, Unwrapped(bottom, |os| - 1)));
  }

  /** The place of a rung among the outcomes in order. */
  function PlaceOf(bottom: nat, n: nat, i: nat): nat
    requires i <= n
  {
    var m := Unwrapped(bottom, n);
    if i < m then n + 1 - m + i else i - m
  }

  lemma PaidPlaceWins(bottom: nat, n: nat, p: int)
    requires bottom + n * ONE_UNIT < TWO_64
    ensures var place := PlaceOf(bottom, n, RungPaid(p, bottom, n));
            && place <= n && (StrikeInOrder(bottom, n, place) <= p || place == 0)
            && (place < n ==> StrikeInOrder(bottom, n, place + 1) > p)
  {
    var m := Unwrapped(bottom, n);
    if RungPaid(p, bottom, n) < m {
      RungForIsLast(p, bottom, m - 1);
    } else {
      RungForIsLast(p, bottom + m * ONE_UNIT - TWO_64, n - m);
    }
  }

  /** The outcome that wins at a price, found again among the rungs. */
  lemma PaidRungWins(os: seq<Outcome>, bottom: nat, p: int)
    requires OnGrid(os, bottom)
    ensures |SortByStrike(os)| == |os|
    ensures SortByStrike(os)[Winner(SortByStrike(os), p)] == os[RungPaid(p, bottom, |os| - 1)]
  {
    var n := |os| - 1;
    var place := PlaceOf(bottom, n, RungPaid(p, bottom, n));
    GridSorted(os, bottom);
    RotatedIncreasing(os, bottom);
    PaidPlaceWins(bottom, n, p);
    RotatedStrike(os, bottom, place);
    if place < n {
      RotatedStrike(os, bottom, place + 1);
    }
    WinnerUnique(SortByStrike(os), p, place);
  }

  lemma LoneStrike(os: seq<Outcome>, bottom: nat)
    requires OnGrid(os, bottom) && |os| == 1
    ensures SortByStrike(os) == os && os[0].strike == AsI64(bottom)
  {
    assert os[0].strike == AsI64(bottom + 0 * ONE_UNIT);
    GridSorted(os, bottom);
  }

  lemma GridBetPays(os: seq<Outcome>, bet: GenericBet, bottom: nat, p: int, w: World, t: Template)
    requires OnGrid(os, bottom)
    requires bet.outcomes == SortByStrike(os) && WellFormed(bet) && Attests(bet.oracle, p, w)
    ensures |os| == |bet.outcomes|
    ensures Pays(bet, w, t) <==>
              t == os[RungPaid(p, bottom, |os| - 1)].template && (|os| >= 2 || p >= AsI64(bottom))
  {
    PaidRungWins(os, bottom, p);
    BetPaysWinner(bet, p, w, t);
    if |os| == 1 {
      LoneStrike(os, bottom);
    }
  }

  /**
   * End to end: once the oracle has attested to a price, the bet over a sound
   * schedule pays exactly the settlement of one rung, `RungPaid`. A single
   * rung is a lone outcome, which is not paid below its strike.
   */
  lemma BetSettlesRung(v: BetArguments, bet: GenericBet, rungs: seq<Rung>, strikes: ReversePath, parties: Parties,
      bottom: nat, current: nat, top: nat, value: nat, p: int, w: World, t: Template)
    requires SoundSchedule(rungs, bottom, current, top, value, v.amount) && top < TWO_64
    requires Settles(v.outcomes, rungs, strikes, parties)
    requires bet.outcomes == SortByStrike(v.outcomes) && WellFormed(bet) && Attests(bet.oracle, p, w)
    ensures |v.outcomes| == |bet.outcomes| == |rungs|
    ensures Pays(bet, w, t) <==>
              t == v.outcomes[RungPaid(p, bottom, |rungs| - 1)].template && (bottom < top || p >= AsI64(bottom))
  {
    SettledOnGrid(v.outcomes, rungs, strikes, parties, bottom, current, top, value, v.amount);
    GridBetPays(v.outcomes, bet, bottom, p, w, t);
  }

  /** The rung paid is the one that the price falls on, at every price, exactly if no strike turns negative. */
  lemma PaysFallenRungIff(bottom: nat, n: nat)
    requires bottom + n * ONE_UNIT < TWO_64
    ensures bottom + n * ONE_UNIT < TWO_63 <==>
              forall p :: RungPaid(p, bottom, n) == RungFor(p, bottom, n)
                  && (n == 0 ==> (p >= AsI64(bottom) <==> p >= bottom))
  {
    if bottom + n * ONE_UNIT >= TWO_63 {
      StrikeOnGrid(bottom, n, n);
      assert RungFor(-1, bottom, n) == 0;
      assert n > 0 ==> RungPaid(-1, bottom, n) == n;
    }
  }
}
