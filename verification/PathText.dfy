/** The text form of effect paths: printing, parsing, and their agreement. */
module PathText {
  import opened Arithmetic
  import opened Wrappers
  import opened EffectPaths

  datatype ValidFragmentError = BranchParseError | BadName(name: string) | InvalidReversePath(reason: string)

  // ------------------------------------------------------------------ numbers

  predicate IsDigit(c: char) {
    '0' <= c <= '9'
  }

  function DigitChar(d: nat): char
    requires d < 10
  {
    '0' + d as char
  }

  function DigitValue(c: char): nat
    requires IsDigit(c)
  {
    (c as int) - ('0' as int)
  }

  /** A number in decimal, without leading zeros. */
  function Decimal(n: nat): (s: string)
    ensures |s| >= 1 && forall i :: 0 <= i < |s| ==> IsDigit(s[i])
  {
    if n < 10 then [DigitChar(n)] else Decimal(n / 10) + [DigitChar(n % 10)]
  }

  function DigitsValue(s: string): nat
    requires forall i :: 0 <= i < |s| ==> IsDigit(s[i])
  {
    if s == [] then 0 else 10 * DigitsValue(s[..|s| - 1]) + DigitValue(s[|s| - 1])
  }

  /** Reads a u64: a plus sign and leading zeros are allowed, overflow is not. */
  function ParseU64(s: string): Option<nat> {
    var digits := if |s| >= 1 && s[0] == '+' then s[1..] else s;
    if digits == [] then None
    else if exists i :: 0 <= i < |digits| && !IsDigit(digits[i]) then None
    else if DigitsValue(digits) > U64_MAX then None
    else Some(DigitsValue(digits))
  }

  lemma {:induction false} DecimalValue(n: nat)
    ensures DigitsValue(Decimal(n)) == n
  {
    if n < 10 {
      assert Decimal(n)[..0] == [];
    } else {
      DecimalValue(n / 10);
      assert Decimal(n)[..|Decimal(n)| - 1] == Decimal(n / 10);
    }
  }

  /** Reading back a printed number gives the number, if it is a u64. */
  lemma ParseDecimal(n: nat)
    ensures ParseU64(Decimal(n)) == if n <= U64_MAX then Some(n) else None
  {
    DecimalValue(n);
    assert IsDigit(Decimal(n)[0]);
  }

  // ---------------------------------------------------------------- fragments

  predicate IsNameChar(c: char) {
    IsDigit(c) || 'a' <= c <= 'z' || 'A' <= c <= 'Z' || c == '_'
  }

  predicate IsName(s: string) {
    forall i :: 0 <= i < |s| ==> IsNameChar(s[i])
  }

  function PrintFragment(f: PathFragment): string {
    match f
    case Root => "@root"
    case Cloned => "@cloned"
    case Action => "@action"
    case FinishFn => "@finish_fn"
    case CondCompIf => "@cond_comp_if"
    case Guard => "@guard"
    case Next => "@next"
    case Suggested => "@suggested"
    case DefaultEffect => "@default_effect"
    case Effects => "@effects"
    case Metadata => "@metadata"
    case Branch(n) => "#" + Decimal(n)
    case Named(name) => name
  }

  function ParseFragment(s: string): Result<PathFragment, ValidFragmentError> {
    if s == "@root" then Ok(Root)
    else if s == "@cloned" then Ok(Cloned)
    else if s == "@action" then Ok(Action)
    else if s == "@finish_fn" then Ok(FinishFn)
    else if s == "@cond_comp_if" then Ok(CondCompIf)
    else if s == "@guard" then Ok(Guard)
    else if s == "@next" then Ok(Next)
    else if s == "@suggested" then Ok(Suggested)
    else if s == "@default_effect" then Ok(DefaultEffect)
    else if s == "@effects" then Ok(Effects)
    else if s == "@metadata" then Ok(Metadata)
    else if |s| >= 1 && s[0] == '#' then
      (match ParseU64(s[1..])
       case Some(n) => Ok(Branch(n))
       case None => Err(BranchParseError))
    else if IsName(s) then Ok(Named(s))
    else Err(BadName(s))
  }

  /** Names use only the permitted characters; numbers are u64. */
  predicate ValidFragment(f: PathFragment) {
    match f
    case Branch(n) => n <= U64_MAX
    case Named(name) => IsName(name)
    case _ => true
  }

  /** A number sign is enough to tell that a number follows. */
  lemma ParseNumbered(s: string)
    requires |s| >= 1 && s[0] == '#'
    ensures ParseFragment(s) == match ParseU64(s[1..]) case Some(n) => Ok(Branch(n)) case None => Err(BranchParseError)
  {
  }

  lemma BranchRoundTrip(n: nat)
    ensures ParseFragment(PrintFragment(Branch(n))) == if n <= U64_MAX then Ok(Branch(n)) else Err(BranchParseError)
  {
    ParseDecimal(n);
    var s := "#" + Decimal(n);
    assert s[0] == '#' && s[1..] == Decimal(n);
    ParseNumbered(s);
  }

  lemma NameRoundTrip(name: string)
    requires IsName(name)
    ensures ParseFragment(name) == Ok(Named(name))
  {
    if name != [] {
      assert IsNameChar(name[0]) && name[0] != '@' && name[0] != '#';
    }
  }

  lemma ReservedRoundTrip(f: PathFragment)
    requires !f.Branch? && !f.Named?
    ensures ParseFragment(PrintFragment(f)) == Ok(f)
  {
  }

  /** A fragment survives printing and parsing exactly when it is valid. */
  lemma FragmentRoundTrip(f: PathFragment)
    ensures ParseFragment(PrintFragment(f)) == Ok(f) <==> ValidFragment(f)
  {
    if f.Branch? {
      BranchRoundTrip(f.index);
    } else if f.Named? {
      ParsedIsValid(f.name);
      if IsName(f.name) {
        NameRoundTrip(f.name);
      }
    } else {
      ReservedRoundTrip(f);
    }
  }

  /** What can be read is valid, and is the text of what was read unless it is a number in another form. */
  lemma ParsedIsValid(s: string)
    ensures ParseFragment(s).Ok? ==> ValidFragment(ParseFragment(s).value)
    ensures ParseFragment(s).Ok? && !ParseFragment(s).value.Branch? ==> PrintFragment(ParseFragment(s).value) == s
    ensures ParseFragment(s).Ok? && ParseFragment(s).value.Branch? ==>
              |s| >= 2 && s[0] == '#' && ParseU64(s[1..]) == Some(ParseFragment(s).value.index)
  {
  }

  // -------------------------------------------------------------------- paths

  predicate NoSlash(s: string) {
    forall i :: 0 <= i < |s| ==> s[i] != '/'
  }

  /** The pieces of a text between slashes; there is always at least one. */
  function Split(s: string): (parts: seq<string>)
    ensures |parts| >= 1
  {
    if s == [] then [[]]
    else
      var rest := Split(s[1..]);
      if s[0] == '/' then [[]] + rest else [[s[0]] + rest[0]] + rest[1..]
  }

  function Join(parts: seq<string>): string {
    if parts == [] then [] else if |parts| == 1 then parts[0] else parts[0] + "/" + Join(parts[1..])
  }

  lemma {:induction false} SplitWithin(s: string, rest: string)
    requires NoSlash(s)
    ensures Split(s + "/" + rest) == [s] + Split(rest)
    ensures Split(s) == [s]
  {
    if s == [] {
      assert [] + "/" + rest == "/" + rest;
      assert ("/" + rest)[1..] == rest;
    } else {
      SplitWithin(s[1..], rest);
      assert (s + "/" + rest)[1..] == s[1..] + "/" + rest;
      assert [s[0]] + s[1..] == s;
    }
  }

  lemma {:induction false} SplitJoin(parts: seq<string>)
    requires parts != [] && forall i :: 0 <= i < |parts| ==> NoSlash(parts[i])
    ensures Split(Join(parts)) == parts
  {
    if |parts| == 1 {
      SplitWithin(parts[0], []);
    } else {
      SplitJoin(parts[1..]);
      SplitWithin(parts[0], Join(parts[1..]));
      assert parts == [parts[0]] + parts[1..];
    }
  }

  function PrintAll(v: seq<PathFragment>): (r: seq<string>)
    ensures |r| == |v|
    ensures forall i :: 0 <= i < |v| ==> r[i] == PrintFragment(v[i])
  {
    if v == [] then [] else [PrintFragment(v[0])] + PrintAll(v[1..])
  }

  function ParseAll(parts: seq<string>): Result<seq<PathFragment>, ValidFragmentError> {
    if parts == [] then Ok([])
    else
      var first :- ParseFragment(parts[0]);
      var rest :- ParseAll(parts[1..]);
      Ok([first] + rest)
  }

  /** A path as text, root first. */
  function TextOf(path: ReversePath): string {
    Join(PrintAll(Fragments(path)))
  }

  function PathFromText(s: string): Result<ReversePath, ValidFragmentError> {
    var fragments :- ParseAll(Split(s));
    match FromVecSpec(fragments)
    case Ok(path) => Ok(path)
    case Err(reason) => Err(InvalidReversePath(reason))
  }

  /** Prints by collecting the fragments, last first, and reversing the texts. */
  method PrintPath(path: ReversePath) returns (s: string)
    ensures s == TextOf(path)
  {
    var fragments := Collect(path);
    var texts := Reversed(PrintAll(fragments));
    assert texts == PrintAll(Fragments(path));
    s := Join(texts);
  }

  method ParsePath(s: string) returns (r: Result<ReversePath, ValidFragmentError>)
    ensures r == PathFromText(s)
  {
    var fragments := ParseAll(Split(s));
    if fragments.Err? {
      return Err(fragments.error);
    }
    var path := FromVec(fragments.value);
    r := match path case Ok(p) => Ok(p) case Err(reason) => Err(InvalidReversePath(reason));
  }

  ghost predicate ValidPath(path: ReversePath) {
    forall i :: 0 <= i < |Fragments(path)| ==> ValidFragment(Fragments(path)[i])
  }

  lemma PrintedHasNoSlash(f: PathFragment)
    requires ValidFragment(f)
    ensures NoSlash(PrintFragment(f))
  {
    if f.Branch? {
      var digits := Decimal(f.index);
      forall i | 0 <= i < |PrintFragment(f)| ensures PrintFragment(f)[i] != '/' {
        assert i > 0 ==> PrintFragment(f)[i] == digits[i - 1] && IsDigit(digits[i - 1]);
      }
    }
  }

  lemma {:induction false} ParsePrinted(v: seq<PathFragment>)
    requires forall i :: 0 <= i < |v| ==> ValidFragment(v[i])
    ensures ParseAll(PrintAll(v)) == Ok(v)
  {
    if v != [] {
      FragmentRoundTrip(v[0]);
      ParsePrinted(v[1..]);
      assert PrintAll(v)[1..] == PrintAll(v[1..]);
      assert v == [v[0]] + v[1..];
    }
  }

  lemma {:induction false} ParsedAreValid(parts: seq<string>)
    requires ParseAll(parts).Ok?
    ensures forall i :: 0 <= i < |ParseAll(parts).value| ==> ValidFragment(ParseAll(parts).value[i])
  {
    if parts != [] {
      ParsedIsValid(parts[0]);
      ParsedAreValid(parts[1..]);
    }
  }

  /** The pieces of a printed path are the texts of its fragments. */
  lemma SplitText(path: ReversePath)
    requires ValidPath(path)
    ensures Split(TextOf(path)) == PrintAll(Fragments(path))
  {
    var v := Fragments(path);
    forall i | 0 <= i < |v| ensures NoSlash(PrintAll(v)[i]) {
      PrintedHasNoSlash(v[i]);
    }
    SplitJoin(PrintAll(v));
  }

  lemma ParsedPathIsValid(s: string)
    requires PathFromText(s).Ok?
    ensures ValidPath(PathFromText(s).value)
  {
    ParsedAreValid(Split(s));
    var v := ParseAll(Split(s)).value;
    assert Fragments(PathOf(v).value) == v;
  }

  /**
   * A path survives printing and parsing exactly when all its names use only
   * the permitted characters and all its numbers are u64.
   */
  lemma PathRoundTrip(path: ReversePath)
    ensures PathFromText(TextOf(path)) == Ok(path) <==> ValidPath(path)
  {
    if ValidPath(path) {
      SplitText(path);
      ParsePrinted(Fragments(path));
      PathOfFragments(path);
    } else if PathFromText(TextOf(path)).Ok? {
      ParsedPathIsValid(TextOf(path));
    }
  }

  /** Printing is injective on paths that survive it. */
  lemma TextIsInjective(p: ReversePath, q: ReversePath)
    requires ValidPath(p) && ValidPath(q) && TextOf(p) == TextOf(q)
    ensures p == q
  {
    PathRoundTrip(p);
    PathRoundTrip(q);
  }
}
