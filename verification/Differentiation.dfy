/** From classifiers to differentiation tokens: decimal numbers joined by '|' and hashed. */
module Differentiation {
  import opened Common
  import opened MurmurWords
  import opened Messages
  import MurmurX86_32

  datatype Token = Token(bits: bv32)
  type Classifier = n: nat | n < 0x1_0000_0000

  // ---------- decimal numbers ----------

  const DIGITS: seq<Byte> := [48, 49, 50, 51, 52, 53, 54, 55, 56, 57]
  const BAR: Byte := 124
  const NO_DIFF: Message := [110, 111, 95, 100, 105, 102, 102]

  /** `std::to_string` of an unsigned number. */
  function Decimal(n: nat): (m: Message)
    ensures |m| > 0 && forall b | b in m :: b in DIGITS
  {
    if n < 10 then [DIGITS[n]] else Decimal(n / 10) + [DIGITS[n % 10]]
  }

  /** The value of a digit byte, and of a string of them. */
  function DigitValue(b: Byte): nat
    requires b in DIGITS
  {
    var d :| 0 <= d < 10 && DIGITS[d] == b; d
  }

  function Value(m: Message): nat
    requires forall b | b in m :: b in DIGITS
  {
    if |m| == 0 then 0 else 10 * Value(m[..|m| - 1]) + DigitValue(m[|m| - 1])
  }

  lemma DigitRoundTrip(d: nat)
    requires d < 10
    ensures DigitValue(DIGITS[d]) == d
  {
    assert forall i, j | 0 <= i < j < 10 :: DIGITS[i] != DIGITS[j];
  }

  lemma {:induction false} DecimalRoundTrip(n: nat)
    ensures Value(Decimal(n)) == n
  {
    hide DigitValue;
    DigitRoundTrip(n % 10);
    if n < 10 {
      assert Value([]) == 0;
      assert Decimal(n)[..0] == [];
    } else {
      DecimalRoundTrip(n / 10);
      assert Decimal(n)[..|Decimal(n)| - 1] == Decimal(n / 10);
    }
  }

  lemma LastDigit(n: nat, d: nat)
    requires n > 0 && d < 10
    ensures Decimal(10 * n + d) == Decimal(n) + [DIGITS[d]]
  {}

  function Pow10(k: nat): nat {
    if k == 0 then 1 else 10 * Pow10(k - 1)
  }

  /** A number has at most `k` digits exactly when it is below ten to the `k`. */
  lemma {:induction false} DecimalLength(n: nat, k: nat)
    requires k > 0
    ensures |Decimal(n)| <= k <==> n < Pow10(k)
  {
    if k == 1 {
      assert Pow10(1) == 10 * Pow10(0);
      if n >= 10 { assert |Decimal(n / 10)| > 0; }
    } else if n >= 10 {
      DecimalLength(n / 10, k - 1);
    } else {
      assert Pow10(k) == 10 * Pow10(k - 1);
      DecimalLength(0, k - 1);
    }
  }

  // ---------- joining ----------

  function Join(a: Message, b: Message): Message {
    a + [BAR] + b
  }

  ghost predicate BarFree(a: Message) {
    forall i | 0 <= i < |a| :: a[i] != BAR
  }

  lemma DecimalBarFree(n: nat)
    ensures BarFree(Decimal(n))
  {
    var m := Decimal(n);
    forall i | 0 <= i < |m| ensures m[i] != BAR {
      assert m[i] in DIGITS;
    }
  }

  /** A bar-free front can be read off a joined string. */
  lemma JoinUnambiguous(a: Message, b: Message, a': Message, b': Message)
    requires BarFree(a) && BarFree(a')
    requires Join(a, b) == Join(a', b')
    ensures a == a' && b == b'
  {
    var m := Join(a, b);
    assert m[|a|] == BAR && Join(a', b')[|a'|] == BAR;
    assert forall i | 0 <= i < |a| :: m[i] == a[i];
    assert forall i | 0 <= i < |a'| :: Join(a', b')[i] == a'[i];
    assert a == m[..|a|] && a' == Join(a', b')[..|a'|];
    assert b == m[|a| + 1..] && b' == Join(a', b')[|a'| + 1..];
  }

  // ---------- channel differentiation ----------

  /** What the classifier dispatch can bind; the functions the code stores in `m_func_build_token`. */
  datatype Builder =
    | WorkflowTypeContext | WorkflowType | WorkflowContext | Workflow
    | TypeContext | Type | Context | NoDiff

  datatype Tuple = Tuple(workflow: Classifier, opType: Classifier, context: Classifier)

  datatype Flags = Flags(workflow: bool, opType: bool, context: bool)

  /** The classifier dispatch of `generate_builder`. */
  function Pick(f: Flags): Builder {
    if f.workflow && f.opType && f.context then WorkflowTypeContext
    else if f.workflow && f.opType then WorkflowType
    else if f.workflow && f.context then WorkflowContext
    else if f.workflow then Workflow
    else if f.opType && f.context then TypeContext
    else if f.opType then Type
    else if f.context then Context
    else NoDiff
  }

  /** The string a bound builder hashes. */
  function Text(b: Builder, x: Tuple): Message {
    match b
    case WorkflowTypeContext => Join(Join(Decimal(x.workflow), Decimal(x.opType)), Decimal(x.context))
    case WorkflowType => Join(Decimal(x.workflow), Decimal(x.opType))
    case WorkflowContext => Join(Decimal(x.workflow), Decimal(x.context))
    case Workflow => Decimal(x.workflow)
    case TypeContext => Join(Decimal(x.opType), Decimal(x.context))
    case Type => Decimal(x.opType)
    case Context => Decimal(x.context)
    case NoDiff => NO_DIFF
  }

  /** The classifiers that the flags select, in the order workflow, operation type, operation context. */
  function Selection(f: Flags, x: Tuple): seq<Classifier> {
    (if f.workflow then [x.workflow] else [])
    + (if f.opType then [x.opType] else [])
    + (if f.context then [x.context] else [])
  }

  /** Numbers in decimal, with a bar (code 124) between two. */
  function Barred(numbers: seq<Classifier>): Message {
    if |numbers| == 0 then []
    else if |numbers| == 1 then Decimal(numbers[0])
    else Decimal(numbers[0]) + [124] + Barred(numbers[1..])
  }

  /** The eight builders write one thing: the selected classifiers in order, or "no_diff" for none. */
  lemma TextOfSelection(f: Flags, x: Tuple)
    ensures Text(Pick(f), x) ==
      if Selection(f, x) == [] then [110, 111, 95, 100, 105, 102, 102] else Barred(Selection(f, x))
  {
    var s := Selection(f, x);
    hide Decimal;
    if |s| >= 2 {
      assert s[1..] == if |s| == 2 then [s[1]] else [s[1], s[2]];
      if |s| == 3 {
        assert s[1..][1..] == [s[2]];
        assert Barred(s[1..]) == Join(Decimal(s[1]), Decimal(s[2]));
        JoinAssociates(Decimal(s[0]), Decimal(s[1]), Decimal(s[2]));
      }
    }
  }

  /** Digits are written as in ASCII. */
  lemma DigitsAreAscii()
    ensures Decimal(0) == [48] && Decimal(1) == [49] && Decimal(2) == [50] && Decimal(3) == [51] && Decimal(4) == [52]
    ensures Decimal(5) == [53] && Decimal(6) == [54] && Decimal(7) == [55] && Decimal(8) == [56] && Decimal(9) == [57]
  {}

  /** The digits of a number, in text: "7|42|130". */
  lemma TextExample()
    ensures Text(Pick(Flags(true, true, true)), Tuple(7, 42, 130)) == [55, 124, 52, 50, 124, 49, 51, 48]
  {
    assert Decimal(7) == [55] && Decimal(4) == [52] && Decimal(1) == [49];
    hide Decimal;
    LastDigit(4, 2);
    LastDigit(1, 3);
    LastDigit(13, 0);
  }

  /** Two tuples agree on every classifier the flags select. */
  ghost predicate Agree(f: Flags, x: Tuple, y: Tuple) {
    && (f.workflow ==> x.workflow == y.workflow)
    && (f.opType ==> x.opType == y.opType)
    && (f.context ==> x.context == y.context)
  }

  lemma DecimalInjective(m: nat, n: nat)
    requires Decimal(m) == Decimal(n)
    ensures m == n
  {
    DecimalRoundTrip(m);
    DecimalRoundTrip(n);
  }

  lemma PairUnambiguous(a: nat, b: nat, c: nat, d: nat)
    requires Join(Decimal(a), Decimal(b)) == Join(Decimal(c), Decimal(d))
    ensures a == c && b == d
  {
    DecimalBarFree(a);
    DecimalBarFree(c);
    JoinUnambiguous(Decimal(a), Decimal(b), Decimal(c), Decimal(d));
    DecimalInjective(a, c);
    DecimalInjective(b, d);
  }

  lemma TripleUnambiguous(x: Tuple, y: Tuple)
    requires Text(WorkflowTypeContext, x) == Text(WorkflowTypeContext, y)
    ensures x == y
  {
    JoinAssociates(Decimal(x.workflow), Decimal(x.opType), Decimal(x.context));
    JoinAssociates(Decimal(y.workflow), Decimal(y.opType), Decimal(y.context));
    DecimalBarFree(x.workflow);
    DecimalBarFree(y.workflow);
    JoinUnambiguous(Decimal(x.workflow), Join(Decimal(x.opType), Decimal(x.context)),
                    Decimal(y.workflow), Join(Decimal(y.opType), Decimal(y.context)));
    DecimalInjective(x.workflow, y.workflow);
    PairUnambiguous(x.opType, x.context, y.opType, y.context);
  }

  lemma JoinAssociates(a: Message, b: Message, c: Message)
    ensures Join(Join(a, b), c) == Join(a, Join(b, c))
  {
    assert Join(Join(a, b), c) == a + [BAR] + b + [BAR] + c;
    assert Join(a, Join(b, c)) == a + [BAR] + b + [BAR] + c;
  }

  /** For every classifier setting, two tuples are written as the same string exactly when they agree
      on the selected classifiers. */
  lemma TextUnambiguous(f: Flags, x: Tuple, y: Tuple)
    ensures Text(Pick(f), x) == Text(Pick(f), y) <==> Agree(f, x, y)
  {
    hide Decimal, Join;
    if Text(Pick(f), x) == Text(Pick(f), y) {
      match Pick(f) {
        case WorkflowTypeContext => TripleUnambiguous(x, y);
        case WorkflowType => PairUnambiguous(x.workflow, x.opType, y.workflow, y.opType);
        case WorkflowContext => PairUnambiguous(x.workflow, x.context, y.workflow, y.context);
        case Workflow => DecimalInjective(x.workflow, y.workflow);
        case TypeContext => PairUnambiguous(x.opType, x.context, y.opType, y.context);
        case Type => DecimalInjective(x.opType, y.opType);
        case Context => DecimalInjective(x.context, y.context);
        case NoDiff =>
      }
    }
  }

  lemma ClassifierLength(n: Classifier)
    ensures |Decimal(n)| <= 10
  {
    DecimalLength(n, 10);
    assert Pow10(10) == 10_000_000_000 by {
      assert Pow10(2) == 100;
      assert Pow10(4) == 10_000;
      assert Pow10(6) == 1_000_000;
      assert Pow10(8) == 100_000_000;
    }
  }

  lemma TextLength(b: Builder, x: Tuple)
    ensures |Text(b, x)| <= 32
  {
    hide Decimal;
    ClassifierLength(x.workflow);
    ClassifierLength(x.opType);
    ClassifierLength(x.context);
  }

  /** The token of a tuple under a bound builder. */
  function TokenOf(b: Builder, x: Tuple): Token {
    TextLength(b, x);
    Token(MurmurX86_32.Hash(Text(b, x)))
  }

  /** Tuples written with the same number of characters, differing inside one aligned group of four
      characters or only in the last incomplete group, never share a token. */
  lemma TokensApart(b: Builder, x: Tuple, y: Tuple)
    requires DifferInOneUnit(Text(b, x), Text(b, y), 4)
    ensures TokenOf(b, x) != TokenOf(b, y)
  {
    hide Text, DifferInOneUnit, MurmurX86_32.Hash;
    TextLength(b, x);
    MurmurX86_32.NoCollision(Text(b, x), Text(b, y));
  }

  /** The one classifier that a single-classifier setting selects. */
  function Selected(f: Flags, x: Tuple): Classifier {
    if f.workflow then x.workflow else if f.opType then x.opType else x.context
  }

  ghost predicate Single(f: Flags) {
    || f == Flags(true, false, false)
    || f == Flags(false, true, false)
    || f == Flags(false, false, true)
  }

  /** With one classifier selected, different values with the same number of digits, at most four,
      never share a token. */
  lemma SmallValuesApart(f: Flags, x: Tuple, y: Tuple)
    requires Single(f)
    requires Selected(f, x) != Selected(f, y)
    requires |Decimal(Selected(f, x))| == |Decimal(Selected(f, y))|
    requires Selected(f, x) < 10_000
    ensures TokenOf(Pick(f), x) != TokenOf(Pick(f), y)
  {
    hide Decimal, MurmurX86_32.Hash;
    var m, m' := Text(Pick(f), x), Text(Pick(f), y);
    assert m == Decimal(Selected(f, x)) && m' == Decimal(Selected(f, y));
    TextUnambiguous(f, x, y);
    DecimalLength(Selected(f, x), 4);
    assert Pow10(4) == 10_000 by { assert Pow10(2) == 100; }
    if |m| == 4 {
      assert m[..0] == m'[..0] && m[4..] == m'[4..];
      assert DifferInBlock(m, m', 4, 0);
    } else {
      assert m[..0] == m'[..0];
      assert DifferInTail(m, m', 4);
    }
    TokensApart(Pick(f), x, y);
  }

  /** ChannelHashingDifferentiation.  Setting classifiers does not rebind the builder: tokens follow
      `bound`, which is unset until the first bind. */
  class ChannelHashing {
    var flags: Flags
    var bound: Option<Builder>

    constructor ()
      ensures flags == Flags(false, false, false) && bound == None
    {
      flags := Flags(false, false, false);
      bound := None;
    }

    method SetClassifiers(workflow: bool, opType: bool, context: bool)
      modifies this`flags
      ensures flags == Flags(workflow, opType, context)
    {
      flags := Flags(workflow, opType, context);
    }

    method BindBuilder()
      modifies this`bound
      ensures bound == Some(Pick(flags))
    {
      if flags.workflow && flags.opType && flags.context {
        bound := Some(WorkflowTypeContext);
      } else if flags.workflow && flags.opType {
        bound := Some(WorkflowType);
      } else if flags.workflow && flags.context {
        bound := Some(WorkflowContext);
      } else if flags.workflow {
        bound := Some(Workflow);
      } else if flags.opType && flags.context {
        bound := Some(TypeContext);
      } else if flags.opType {
        bound := Some(Type);
      } else if flags.context {
        bound := Some(Context);
      } else {
        bound := Some(NoDiff);
      }
    }

    /** None models calling an empty `std::function`. */
    method BuildDifferentiationToken(x: Tuple) returns (token: Option<Token>)
      ensures token == if bound.None? then None else Some(TokenOf(bound.value, x))
    {
      if bound.None? {
        return None;
      }
      TextLength(bound.value, x);
      var t := MurmurX86_32.X86_32(Text(bound.value, x));
      token := Some(Token(t));
    }
  }

  // ---------- enforcement-object differentiation ----------

  datatype Pair = Pair(opType: Classifier, context: Classifier)

  datatype ObjectFlags = ObjectFlags(opType: bool, context: bool)

  /** Objects are told apart by the same strings as channels, with no workflow. */
  function PickObject(f: ObjectFlags): Builder {
    Pick(Flags(false, f.opType, f.context))
  }

  function ObjectToken(b: Builder, p: Pair): Token {
    TokenOf(b, Tuple(0, p.opType, p.context))
  }

  lemma ObjectTextUnambiguous(f: ObjectFlags, p: Pair, q: Pair)
    ensures Text(PickObject(f), Tuple(0, p.opType, p.context)) == Text(PickObject(f), Tuple(0, q.opType, q.context))
       <==> (f.opType ==> p.opType == q.opType) && (f.context ==> p.context == q.context)
  {
    TextUnambiguous(Flags(false, f.opType, f.context), Tuple(0, p.opType, p.context), Tuple(0, q.opType, q.context));
  }

  /** ObjectHashingDifferentiation. */
  class ObjectHashing {
    var flags: ObjectFlags
    var bound: Option<Builder>

    constructor ()
      ensures flags == ObjectFlags(false, false) && bound == None
    {
      flags := ObjectFlags(false, false);
      bound := None;
    }

    method SetClassifiers(opType: bool, context: bool)
      modifies this`flags
      ensures flags == ObjectFlags(opType, context)
    {
      flags := ObjectFlags(opType, context);
    }

    method BindBuilder()
      modifies this`bound
      ensures bound == Some(PickObject(flags))
    {
      if flags.opType && flags.context {
        bound := Some(TypeContext);
      } else if flags.opType {
        bound := Some(Type);
      } else if flags.context {
        bound := Some(Context);
      } else {
        bound := Some(NoDiff);
      }
    }

    method BuildDifferentiationToken(p: Pair) returns (token: Option<Token>)
      ensures token == if bound.None? then None else Some(ObjectToken(bound.value, p))
    {
      if bound.None? {
        return None;
      }
      TextLength(bound.value, Tuple(0, p.opType, p.context));
      var t := MurmurX86_32.X86_32(Text(bound.value, Tuple(0, p.opType, p.context)));
      token := Some(Token(t));
    }
  }
}
