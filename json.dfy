/**
 * JavaScript values as the connector sees them: decoded JSON, option
 * records and the objects that hold request parameters and identity data.
 * Numbers are integers here; there is no floating point in the model.
 */
module Json {

  datatype Option<T> = None | Some(value: T)

  datatype Value =
    | Undefined
    | Null
    | Bool(b: bool)
    | Num(n: int)
    | Str(s: string)
    | Arr(elems: seq<Value>)
    | Obj(fields: map<string, Value>)

  /** JavaScript truthiness, the meaning of `!!v`. */
  predicate Truthy(v: Value) {
    match v
    case Undefined => false
    case Null => false
    case Bool(b) => b
    case Num(n) => n != 0
    case Str(s) => s != ""
    case Arr(_) => true
    case Obj(_) => true
  }

  /** `typeof v == "object"`: arrays, objects and, as in JavaScript, null. */
  predicate IsObjectType(v: Value) {
    v.Obj? || v.Arr? || v.Null?
  }

  /**
   * Property read `v.k` on a value that is neither null nor undefined: an
   * own field of an object, and undefined for everything else.
   */
  function Field(v: Value, k: string): (r: Value)
    ensures !v.Obj? ==> r == Undefined
    ensures v.Obj? && k !in v.fields ==> r == Undefined
  {
    if v.Obj? && k in v.fields then v.fields[k] else Undefined
  }

  /** A property read that throws a TypeError (None) on null or undefined. */
  function Prop(v: Value, k: string): (r: Option<Value>)
    ensures r.None? <==> (v.Undefined? || v.Null?)
    ensures r.Some? ==> r.value == Field(v, k)
  {
    if v.Undefined? || v.Null? then None else Some(Field(v, k))
  }

  function DigitChar(d: nat): char
    requires d < 10
  {
    "0123456789"[d]
  }

  /** Decimal text of a natural number. */
  function NatToStr(n: nat): (s: string)
    ensures |s| > 0
    ensures forall i :: 0 <= i < |s| ==> '0' <= s[i] <= '9'
    decreases n
  {
    if n < 10 then [DigitChar(n)] else NatToStr(n / 10) + [DigitChar(n % 10)]
  }

  /** `String(v)`, as used by template literals and `encodeURIComponent`. */
  function ToStr(v: Value): string
    decreases v
  {
    match v
    case Undefined => "undefined"
    case Null => "null"
    case Bool(b) => if b then "true" else "false"
    case Num(n) => if n < 0 then "-" + NatToStr(-n) else NatToStr(n)
    case Str(s) => s
    case Arr(e) => JoinElems(e)
    case Obj(_) => "[object Object]"
  }

  /** `Array.prototype.join(",")`: null and undefined elements print as "". */
  function JoinElems(e: seq<Value>): string
    decreases e
  {
    if e == [] then ""
    else
      var head := if e[0].Null? || e[0].Undefined? then "" else ToStr(e[0]);
      if |e| == 1 then head else head + "," + JoinElems(e[1..])
  }

  /** The characters `Number(s)` trims: white space and line terminators. */
  predicate Blank(c: char) {
    c == '\t' || c == '\n' || c == '\U{000B}' || c == '\U{000C}' || c == '\r' || c == ' ' ||
    c == '\U{00A0}' || c == '\U{1680}' || ('\U{2000}' <= c <= '\U{200A}') ||
    c == '\U{2028}' || c == '\U{2029}' || c == '\U{202F}' || c == '\U{205F}' ||
    c == '\U{3000}' || c == '\U{FEFF}'
  }

  // The numeric grammar below reads the window s[i..j] of a text by position.

  /** The first position at or after `i` that is not blank (`|s|` when there is none). */
  function SkipBlanks(s: string, i: nat): (k: nat)
    requires i <= |s|
    ensures i <= k <= |s|
    decreases |s| - i
  {
    if i < |s| && Blank(s[i]) then SkipBlanks(s, i + 1) else i
  }

  /** The end of s[lo..j] once trailing blanks are dropped. */
  function SkipBlanksBack(s: string, lo: nat, j: nat): (k: nat)
    requires lo <= j <= |s|
    ensures lo <= k <= j
    decreases j
  {
    if lo < j && Blank(s[j - 1]) then SkipBlanksBack(s, lo, j - 1) else j
  }

  /** The character classes of the numeric grammar. */
  datatype CharClass = Zero | Digit | Dot | ExpMark

  predicate InClass(c: char, k: CharClass) {
    match k
    case Zero => c == '0'
    case Digit => '0' <= c <= '9'
    case Dot => c == '.'
    case ExpMark => c == 'e' || c == 'E'
  }

  /** The first position of s[i..j] holding a character of class `cs` (`j` when there is none). */
  function FindIn(s: string, cs: CharClass, i: nat, j: nat): (k: nat)
    requires i <= j <= |s|
    ensures i <= k <= j
    decreases j - i
  {
    if i == j || InClass(s[i], cs) then i else FindIn(s, cs, i + 1, j)
  }

  /** Every character of s[i..j] is of class `cs`. */
  predicate CharsIn(s: string, cs: CharClass, i: nat, j: nat)
    requires i <= j <= |s|
    decreases j - i
  {
    i == j || (InClass(s[i], cs) && CharsIn(s, cs, i + 1, j))
  }

  /** s[i..j] is digits with at most one '.', at least one digit, all '0'. */
  predicate ZeroMantissa(s: string, i: nat, j: nat)
    requires i <= j <= |s|
  {
    var p := FindIn(s, Dot, i, j);
    CharsIn(s, Zero, i, p) && (p == j || CharsIn(s, Zero, p + 1, j)) && (i < p || p + 1 < j)
  }

  /** The start of s[i..j] after one optional '+' or '-'. */
  function SkipSign(s: string, i: nat, j: nat): (b: nat)
    requires i <= j <= |s|
    ensures i <= b <= j
  {
    if i < j && (s[i] == '+' || s[i] == '-') then i + 1 else i
  }

  /** s[i..j] is an optional sign and at least one digit. */
  predicate SignedDigits(s: string, i: nat, j: nat)
    requires i <= j <= |s|
  {
    var b := SkipSign(s, i, j);
    b < j && CharsIn(s, Digit, b, j)
  }

  /** s[i..j] is a signed decimal literal of value zero: the exponent, if any, does not matter. */
  predicate DecimalZero(s: string, i: nat, j: nat)
    requires i <= j <= |s|
  {
    var a := SkipSign(s, i, j);
    var e := FindIn(s, ExpMark, a, j);
    ZeroMantissa(s, a, e) && (e == j || SignedDigits(s, e + 1, j))
  }

  /** s[i..j] is a hexadecimal, octal or binary literal of value zero: '0x', '0o' or '0b', then only zeros. */
  predicate RadixZero(s: string, i: nat, j: nat)
    requires i <= j <= |s|
  {
    i + 3 <= j && s[i] == '0' && s[i + 1] in {'x', 'X', 'o', 'O', 'b', 'B'} && CharsIn(s, Zero, i + 2, j)
  }

  /** s[i..j] is empty or a numeric literal of value zero. */
  predicate ZeroLiteral(s: string, i: nat, j: nat)
    requires i <= j <= |s|
  {
    i == j || DecimalZero(s, i, j) || RadixZero(s, i, j)
  }

  /** `Number(s) === 0`: once blanks are trimmed from both ends, the text is a literal of value zero. */
  predicate ZeroText(s: string) {
    ZeroLiteral(s, TrimLo(s), TrimHi(s))
  }

  /** The bounds of `s` once blanks are trimmed from both ends. */
  function TrimLo(s: string): (lo: nat)
    ensures lo <= |s|
  {
    SkipBlanks(s, 0)
  }

  function TrimHi(s: string): (hi: nat)
    ensures TrimLo(s) <= hi <= |s|
  {
    SkipBlanksBack(s, TrimLo(s), |s|)
  }

  /** The loose comparison `v == 0` of JavaScript (on an integer number model). */
  predicate LooseEqualsZero(v: Value) {
    match v
    case Undefined => false
    case Null => false
    case Bool(b) => !b
    case Num(n) => n == 0
    case Str(s) => ZeroText(s)
    case Arr(_) => ZeroText(ToStr(v))
    case Obj(_) => false
  }

  predicate AllBlank(s: string) {
    forall k :: 0 <= k < |s| ==> Blank(s[k])
  }

  /** Skipping a run of blanks. */
  lemma {:induction false} SkipOverBlanks(s: string, i: nat, j: nat)
    requires i <= j <= |s| && forall k :: i <= k < j ==> Blank(s[k])
    ensures SkipBlanks(s, i) == SkipBlanks(s, j)
    decreases j - i
  {
    if i < j {
      SkipOverBlanks(s, i + 1, j);
    }
  }

  /** Dropping trailing blanks at the end of a window with a run of blanks. */
  lemma {:induction false} BackOverBlanks(s: string, lo: nat, i: nat, j: nat)
    requires lo <= i <= j <= |s| && forall k :: i <= k < j ==> Blank(s[k])
    ensures SkipBlanksBack(s, lo, j) == SkipBlanksBack(s, lo, i)
    decreases j
  {
    if i < j {
      BackOverBlanks(s, lo, i, j - 1);
    }
  }

  /** The first non-blank of `s` from `i` on, found again in a text `t` that holds `s` shifted by `d`. */
  lemma {:induction false} SkipShift(s: string, t: string, d: nat, i: nat)
    requires i <= |s| && |s| + d <= |t| && forall k :: i <= k < |s| ==> s[k] == t[k + d]
    requires SkipBlanks(s, i) < |s|
    ensures SkipBlanks(t, i + d) == SkipBlanks(s, i) + d
    decreases |s| - i
  {
    if Blank(s[i]) {
      assert s[i] == t[i + d];
      SkipShift(s, t, d, i + 1);
    } else {
      assert s[i] == t[i + d];
    }
  }

  lemma {:induction false} BackShift(s: string, t: string, d: nat, lo: nat, j: nat)
    requires lo <= j <= |s| && |s| + d <= |t| && forall k :: lo <= k < j ==> s[k] == t[k + d]
    ensures SkipBlanksBack(t, lo + d, j + d) == SkipBlanksBack(s, lo, j) + d
    decreases j
  {
    if lo < j {
      assert s[j - 1] == t[j - 1 + d];
      BackShift(s, t, d, lo, j - 1);
    }
  }

  lemma {:induction false} FindInShift(s: string, t: string, d: nat, cs: CharClass, i: nat, j: nat)
    requires i <= j <= |s| && j + d <= |t| && forall k :: i <= k < j ==> s[k] == t[k + d]
    ensures FindIn(t, cs, i + d, j + d) == FindIn(s, cs, i, j) + d
    decreases j - i
  {
    if i < j {
      assert s[i] == t[i + d];
      FindInShift(s, t, d, cs, i + 1, j);
    }
  }

  lemma {:induction false} CharsInShift(s: string, t: string, d: nat, cs: CharClass, i: nat, j: nat)
    requires i <= j <= |s| && j + d <= |t| && forall k :: i <= k < j ==> s[k] == t[k + d]
    ensures CharsIn(t, cs, i + d, j + d) == CharsIn(s, cs, i, j)
    decreases j - i
  {
    if i < j {
      assert s[i] == t[i + d];
      CharsInShift(s, t, d, cs, i + 1, j);
    }
  }

  lemma MantissaShift(s: string, t: string, d: nat, i: nat, j: nat)
    requires i <= j <= |s| && j + d <= |t| && forall k :: i <= k < j ==> s[k] == t[k + d]
    ensures ZeroMantissa(t, i + d, j + d) == ZeroMantissa(s, i, j)
  {
    FindInShift(s, t, d, Dot, i, j);
    var p := FindIn(s, Dot, i, j);
    CharsInShift(s, t, d, Zero, i, p);
    if p < j {
      CharsInShift(s, t, d, Zero, p + 1, j);
    }
  }

  lemma SkipSignShift(s: string, t: string, d: nat, i: nat, j: nat)
    requires i <= j <= |s| && j + d <= |t| && forall k :: i <= k < j ==> s[k] == t[k + d]
    ensures SkipSign(t, i + d, j + d) == SkipSign(s, i, j) + d
  {
    if i < j {
      assert s[i] == t[i + d];
    }
  }

  lemma SignedDigitsShift(s: string, t: string, d: nat, i: nat, j: nat)
    requires i <= j <= |s| && j + d <= |t| && forall k :: i <= k < j ==> s[k] == t[k + d]
    ensures SignedDigits(t, i + d, j + d) == SignedDigits(s, i, j)
  {
    SkipSignShift(s, t, d, i, j);
    CharsInShift(s, t, d, Digit, SkipSign(s, i, j), j);
  }

  lemma DecimalZeroShift(s: string, t: string, d: nat, i: nat, j: nat)
    requires i <= j <= |s| && j + d <= |t| && forall k :: i <= k < j ==> s[k] == t[k + d]
    ensures DecimalZero(t, i + d, j + d) == DecimalZero(s, i, j)
  {
    SkipSignShift(s, t, d, i, j);
    var a := SkipSign(s, i, j);
    FindInShift(s, t, d, ExpMark, a, j);
    var e := FindIn(s, ExpMark, a, j);
    MantissaShift(s, t, d, a, e);
    if e < j {
      SignedDigitsShift(s, t, d, e + 1, j);
    }
  }

  /** Whether a window holds a literal of value zero depends only on its characters. */
  lemma ZeroLiteralShift(s: string, t: string, d: nat, i: nat, j: nat)
    requires i <= j <= |s| && j + d <= |t| && forall k :: i <= k < j ==> s[k] == t[k + d]
    ensures ZeroLiteral(t, i + d, j + d) == ZeroLiteral(s, i, j)
  {
    DecimalZeroShift(s, t, d, i, j);
    if i + 2 <= j {
      assert s[i] == t[i + d] && s[i + 1] == t[i + 1 + d];
      CharsInShift(s, t, d, Zero, i + 2, j);
    }
  }

  /** Everything `SkipBlanks` passes over is blank. */
  lemma {:induction false} SkippedAreBlank(s: string, i: nat)
    requires i <= |s|
    ensures forall k :: i <= k < SkipBlanks(s, i) ==> Blank(s[k])
    decreases |s| - i
  {
    if i < |s| && Blank(s[i]) {
      SkippedAreBlank(s, i + 1);
    }
  }

  /** A padded text that is all blanks. */
  lemma PaddedBlanks(pre: string, s: string, post: string)
    requires AllBlank(pre) && AllBlank(post) && SkipBlanks(s, 0) == |s|
    ensures ZeroText(pre + s + post) && ZeroText(s)
  {
    var u := pre + s + post;
    SkippedAreBlank(s, 0);
    forall k | 0 <= k < |u| ensures Blank(u[k]) {
      if k < |pre| {
        assert u[k] == pre[k];
      } else if k < |pre| + |s| {
        assert u[k] == s[k - |pre|];
      } else {
        assert u[k] == post[k - |pre| - |s|];
      }
    }
    SkipOverBlanks(u, 0, |u|);
  }

  /** A text `u` holding `s` at offset `d` with only blanks around it, where `s` is not all blanks, trims to `s`'s window. */
  lemma PaddedBounds(s: string, u: string, d: nat)
    requires |s| + d <= |u| && SkipBlanks(s, 0) < |s|
    requires forall k :: 0 <= k < d ==> Blank(u[k])
    requires forall k :: d + |s| <= k < |u| ==> Blank(u[k])
    requires forall k :: 0 <= k < |s| ==> s[k] == u[k + d]
    ensures TrimLo(u) == TrimLo(s) + d && TrimHi(u) == TrimHi(s) + d
  {
    var lo := SkipBlanks(s, 0);
    SkipOverBlanks(u, 0, d);
    SkipShift(s, u, d, 0);
    BackOverBlanks(u, lo + d, |s| + d, |u|);
    BackShift(s, u, d, lo, |s|);
  }

  lemma PaddedText(s: string, u: string, d: nat)
    requires |s| + d <= |u| && SkipBlanks(s, 0) < |s|
    requires forall k :: 0 <= k < d ==> Blank(u[k])
    requires forall k :: d + |s| <= k < |u| ==> Blank(u[k])
    requires forall k :: 0 <= k < |s| ==> s[k] == u[k + d]
    ensures ZeroText(u) == ZeroText(s)
  {
    PaddedBounds(s, u, d);
    ZeroLiteralShift(s, u, d, TrimLo(s), TrimHi(s));
  }

  /** Blanks around a text do not change whether it reads as zero. */
  lemma ZeroTextIgnoresPadding(pre: string, s: string, post: string)
    requires AllBlank(pre) && AllBlank(post)
    ensures ZeroText(pre + s + post) == ZeroText(s)
  {
    if SkipBlanks(s, 0) == |s| {
      PaddedBlanks(pre, s, post);
    } else {
      var u := pre + s + post;
      var d := |pre|;
      forall k | 0 <= k < d ensures Blank(u[k]) {
        assert u[k] == pre[k];
      }
      forall k | d + |s| <= k < |u| ensures Blank(u[k]) {
        assert u[k] == post[k - d - |s|];
      }
      forall k | 0 <= k < |s| ensures s[k] == u[k + d] {
      }
      PaddedText(s, u, d);
    }
  }

  /**
   * What `== 0` makes of some texts: blanks count only at the ends, a sign
   * goes only before a decimal literal, a literal needs a digit and a
   * complete exponent, and radix literals and fractions of zero are zero.
   */
  lemma ZeroTextExamples()
    ensures !LooseEqualsZero(Str("0 0"))
    ensures LooseEqualsZero(Str("\t0"))
    ensures LooseEqualsZero(Str(" "))
    ensures LooseEqualsZero(Str("-0"))
    ensures LooseEqualsZero(Str("+0"))
    ensures LooseEqualsZero(Str("0x0"))
    ensures !LooseEqualsZero(Str("0x"))
    ensures !LooseEqualsZero(Str("-0x0"))
    ensures LooseEqualsZero(Str("0.0"))
    ensures LooseEqualsZero(Str(".0e-5"))
    ensures !LooseEqualsZero(Str("."))
    ensures !LooseEqualsZero(Str("0e"))
    ensures !LooseEqualsZero(Str("1"))
  {
    InnerBlankIsNotZero();
    LeadingTabIsZero();
    BlankIsZero();
    MinusZeroIsZero();
    PlusZeroIsZero();
    HexZeroIsZero();
    BarePrefixIsNotZero();
    SignedHexIsNotZero();
    FractionIsZero();
    ExponentIsZero();
    LoneDotIsNotZero();
    EmptyExponentIsNotZero();
    OneIsNotZero();
  }

  lemma InnerBlankIsNotZero()
    ensures !LooseEqualsZero(Str("0 0"))
  {
    assert SkipBlanks("0 0", 0) == 0;
    assert SkipBlanksBack("0 0", 0, 3) == 3;
    assert FindIn("0 0", ExpMark, 0, 3) == 3;
    assert FindIn("0 0", Dot, 0, 3) == 3;
    assert !CharsIn("0 0", Zero, 0, 3);
  }

  lemma LeadingTabIsZero()
    ensures LooseEqualsZero(Str("\t0"))
  {
    assert SkipBlanks("\t0", 0) == 1;
    assert SkipBlanksBack("\t0", 1, 2) == 2;
    assert FindIn("\t0", ExpMark, 1, 2) == 2;
    assert FindIn("\t0", Dot, 1, 2) == 2;
    assert CharsIn("\t0", Zero, 1, 2);
  }

  lemma BlankIsZero()
    ensures LooseEqualsZero(Str(" "))
  {
    assert SkipBlanks(" ", 0) == 1;
  }

  lemma MinusZeroIsZero()
    ensures LooseEqualsZero(Str("-0"))
  {
    assert SkipBlanks("-0", 0) == 0;
    assert SkipBlanksBack("-0", 0, 2) == 2;
    assert FindIn("-0", ExpMark, 1, 2) == 2;
    assert FindIn("-0", Dot, 1, 2) == 2;
    assert CharsIn("-0", Zero, 1, 2);
  }

  lemma PlusZeroIsZero()
    ensures LooseEqualsZero(Str("+0"))
  {
    assert SkipBlanks("+0", 0) == 0;
    assert SkipBlanksBack("+0", 0, 2) == 2;
    assert FindIn("+0", ExpMark, 1, 2) == 2;
    assert FindIn("+0", Dot, 1, 2) == 2;
    assert CharsIn("+0", Zero, 1, 2);
  }

  lemma HexZeroIsZero()
    ensures LooseEqualsZero(Str("0x0"))
  {
    assert SkipBlanks("0x0", 0) == 0;
    assert SkipBlanksBack("0x0", 0, 3) == 3;
    assert CharsIn("0x0", Zero, 2, 3);
  }

  lemma BarePrefixIsNotZero()
    ensures !LooseEqualsZero(Str("0x"))
  {
    assert SkipBlanks("0x", 0) == 0;
    assert SkipBlanksBack("0x", 0, 2) == 2;
    assert FindIn("0x", ExpMark, 0, 2) == 2;
    assert FindIn("0x", Dot, 0, 2) == 2;
    assert !CharsIn("0x", Zero, 0, 2);
  }

  lemma SignedHexIsNotZero()
    ensures !LooseEqualsZero(Str("-0x0"))
  {
    assert SkipBlanks("-0x0", 0) == 0;
    assert SkipBlanksBack("-0x0", 0, 4) == 4;
    assert FindIn("-0x0", ExpMark, 1, 4) == 4;
    assert FindIn("-0x0", Dot, 1, 4) == 4;
    assert !CharsIn("-0x0", Zero, 1, 4);
  }

  lemma FractionIsZero()
    ensures LooseEqualsZero(Str("0.0"))
  {
    assert SkipBlanks("0.0", 0) == 0;
    assert SkipBlanksBack("0.0", 0, 3) == 3;
    assert FindIn("0.0", ExpMark, 0, 3) == 3;
    assert FindIn("0.0", Dot, 0, 3) == 1;
    assert CharsIn("0.0", Zero, 0, 1);
    assert CharsIn("0.0", Zero, 2, 3);
  }

  lemma ExponentIsZero()
    ensures LooseEqualsZero(Str(".0e-5"))
  {
    assert SkipBlanks(".0e-5", 0) == 0;
    assert SkipBlanksBack(".0e-5", 0, 5) == 5;
    assert FindIn(".0e-5", ExpMark, 0, 5) == 2;
    assert FindIn(".0e-5", Dot, 0, 2) == 0;
    assert CharsIn(".0e-5", Zero, 1, 2);
    assert CharsIn(".0e-5", Digit, 4, 5);
  }

  lemma LoneDotIsNotZero()
    ensures !LooseEqualsZero(Str("."))
  {
    assert SkipBlanks(".", 0) == 0;
    assert SkipBlanksBack(".", 0, 1) == 1;
    assert FindIn(".", ExpMark, 0, 1) == 1;
    assert FindIn(".", Dot, 0, 1) == 0;
  }

  lemma EmptyExponentIsNotZero()
    ensures !LooseEqualsZero(Str("0e"))
  {
    assert SkipBlanks("0e", 0) == 0;
    assert SkipBlanksBack("0e", 0, 2) == 2;
    assert FindIn("0e", ExpMark, 0, 2) == 1;
  }

  lemma OneIsNotZero()
    ensures !LooseEqualsZero(Str("1"))
  {
    assert SkipBlanks("1", 0) == 0;
    assert SkipBlanksBack("1", 0, 1) == 1;
    assert FindIn("1", ExpMark, 0, 1) == 1;
    assert FindIn("1", Dot, 0, 1) == 1;
    assert !CharsIn("1", Zero, 0, 1);
  }

  predicate NoDup(keys: seq<string>) {
    forall i, j :: 0 <= i < j < |keys| ==> keys[i] != keys[j]
  }

  /**
   * The own enumerable properties of a JavaScript object: the keys in
   * insertion order and their values. `Object.keys` reports this order for
   * keys that are not integer-like (it lists integer-like keys first, in
   * ascending order; the connector uses no such keys).
   */
  datatype Props = Props(keys: seq<string>, fields: map<string, Value>) {

    ghost predicate Valid() {
      NoDup(keys) && forall k :: k in fields <==> k in keys
    }

    /** `o.k`: undefined for a missing key. */
    function Get(k: string): Value {
      if k in fields then fields[k] else Undefined
    }

    /**
     * `o.k = v`: a new key goes to the end of the key order, an existing
     * key keeps its place.
     */
    function Put(k: string, v: Value): (r: Props)
      requires Valid()
      ensures r.Valid()
      ensures r.fields == fields[k := v]
      ensures k in fields ==> r.keys == keys
      ensures k !in fields ==> r.keys == keys + [k]
    {
      if k in fields then Props(keys, fields[k := v]) else Props(keys + [k], fields[k := v])
    }

    /** The object as a JSON value (key order is not part of `Value`). */
    function ToValue(): Value {
      Obj(fields)
    }
  }

  const EmptyProps: Props := Props([], map[])

  /** A mutable JavaScript object. */
  class JsObject {
    var props: Props

    ghost predicate Valid()
      reads this
    {
      props.Valid()
    }

    constructor (p: Props)
      requires p.Valid()
      ensures Valid() && props == p
    {
      props := p;
    }

    method Put(k: string, v: Value)
      requires Valid()
      modifies this
      ensures Valid()
      ensures props == old(props).Put(k, v)
    {
      props := props.Put(k, v);
    }
  }
}
