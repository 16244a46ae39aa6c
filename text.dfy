/**
 * The few Foundation string services the core relies on, stated over ASCII:
 * case folding, ordering (the model of `localizedCaseInsensitiveCompare`),
 * case-insensitive substring search (`range(of:options: .caseInsensitive)`),
 * trimming, `prefix(n)` and `%d` formatting of naturals.
 */
module Text {

  /** Foundation's `ComparisonResult`. */
  datatype ComparisonResult = OrderedAscending | OrderedSame | OrderedDescending {
    function Flip(): ComparisonResult {
      match this
      case OrderedAscending => OrderedDescending
      case OrderedSame => OrderedSame
      case OrderedDescending => OrderedAscending
    }
  }

  // ---------------------------------------------------------------- case folding

  function LowerChar(c: char): char {
    if 'A' <= c <= 'Z' then (c as int + 32) as char else c
  }

  function Lower(s: string): string {
    seq(|s|, i requires 0 <= i < |s| => LowerChar(s[i]))
  }

  lemma LowerAppend(a: string, b: string)
    ensures Lower(a + b) == Lower(a) + Lower(b)
  {
  }

  // ---------------------------------------------------------------- ordering

  /** Lexicographic order on character codes; a proper prefix comes first. */
  function LexCompare(a: string, b: string): ComparisonResult
  {
    if a == [] && b == [] then OrderedSame
    else if a == [] then OrderedAscending
    else if b == [] then OrderedDescending
    else if a[0] < b[0] then OrderedAscending
    else if b[0] < a[0] then OrderedDescending
    else LexCompare(a[1..], b[1..])
  }

  /** Swapping the operands flips the outcome. */
  lemma {:induction false} LexCompareFlip(a: string, b: string)
    ensures LexCompare(b, a) == LexCompare(a, b).Flip()
  {
    if a != [] && b != [] && a[0] == b[0] {
      LexCompareFlip(a[1..], b[1..]);
    }
  }

  /** Only equal strings compare the same. */
  lemma {:induction false} LexCompareSame(a: string, b: string)
    ensures LexCompare(a, b) == OrderedSame <==> a == b
  {
    if a != [] && b != [] && a[0] == b[0] {
      LexCompareSame(a[1..], b[1..]);
      assert a == [a[0]] + a[1..] && b == [b[0]] + b[1..];
    }
  }

  /** Ascending order is transitive. */
  lemma {:induction false} LexCompareTransitive(a: string, b: string, c: string)
    requires LexCompare(a, b) == OrderedAscending
    requires LexCompare(b, c) == OrderedAscending
    ensures LexCompare(a, c) == OrderedAscending
  {
    if a != [] && b != [] && c != [] && a[0] == b[0] && b[0] == c[0] {
      LexCompareTransitive(a[1..], b[1..], c[1..]);
    }
  }

  /** "Not after": the total preorder a sorted list follows. */
  predicate LexLessEq(a: string, b: string) {
    LexCompare(a, b) != OrderedDescending
  }

  lemma LexLessEqTotal(a: string, b: string)
    ensures LexLessEq(a, b) || LexLessEq(b, a)
  {
    LexCompareFlip(a, b);
  }

  lemma LexLessEqTransitive(a: string, b: string, c: string)
    requires LexLessEq(a, b) && LexLessEq(b, c)
    ensures LexLessEq(a, c)
  {
    LexCompareSame(a, b);
    LexCompareSame(b, c);
    if LexCompare(a, b) == OrderedAscending && LexCompare(b, c) == OrderedAscending {
      LexCompareTransitive(a, b, c);
    }
  }

  /** The model of `localizedCaseInsensitiveCompare`: compare the lower-cased strings. */
  function CaseInsensitiveCompare(a: string, b: string): ComparisonResult {
    LexCompare(Lower(a), Lower(b))
  }

  // ---------------------------------------------------------------- searching

  predicate MatchesAt(hay: string, needle: string, i: int)
    requires 0 <= i <= |hay| - |needle|
  {
    Lower(hay[i..i + |needle|]) == Lower(needle)
  }

  /**
   * `hay.range(of: needle, options: .caseInsensitive) != nil`. Foundation finds
   * nothing for an empty needle, so an empty needle is never contained.
   */
  predicate ContainsCaseInsensitive(hay: string, needle: string) {
    |needle| > 0 && exists i :: 0 <= i <= |hay| - |needle| && MatchesAt(hay, needle, i)
  }

  // ---------------------------------------------------------------- trimming, slicing

  /** The two Foundation character sets the core trims with, over ASCII. */
  datatype CharacterSet = Whitespaces | WhitespacesAndNewlines {
    /** `.whitespaces`: space and tab; `.whitespacesAndNewlines` adds LF, VT, FF and CR. */
    predicate Contains(c: char) {
      match this
      case Whitespaces => c == ' ' || c == '\t'
      case WhitespacesAndNewlines => c == ' ' || c == '\t' || c == '\n' || c == '\r' || c as int == 11 || c as int == 12
    }
  }

  /** Drops the characters of `cs` at the start of `s`. */
  function TrimLeading(s: string, cs: CharacterSet): string {
    if |s| > 0 && cs.Contains(s[0]) then TrimLeading(s[1..], cs) else s
  }

  /** Drops the characters of `cs` at the end of `s`. */
  function TrimTrailing(s: string, cs: CharacterSet): string {
    if |s| > 0 && cs.Contains(s[|s| - 1]) then TrimTrailing(s[..|s| - 1], cs) else s
  }

  /** What leading trimming leaves: a suffix of `s` not starting in `cs`, after characters of `cs` only. */
  lemma {:induction false} TrimLeadingSuffix(s: string, cs: CharacterSet)
    ensures var r := TrimLeading(s, cs);
      && |r| <= |s| && r == s[|s| - |r|..]
      && (r == [] || !cs.Contains(r[0]))
      && (forall i :: 0 <= i < |s| - |r| ==> cs.Contains(s[i]))
  {
    if |s| > 0 && cs.Contains(s[0]) {
      TrimLeadingSuffix(s[1..], cs);
      var r := TrimLeading(s, cs);
      assert r == TrimLeading(s[1..], cs);
      forall i | 0 <= i < |s| - |r| ensures cs.Contains(s[i]) {
        if i > 0 {
          assert s[i] == s[1..][i - 1];
        }
      }
    }
  }

  /** What trailing trimming leaves: a prefix of `s` not ending in `cs`, before characters of `cs` only. */
  lemma {:induction false} TrimTrailingPrefix(s: string, cs: CharacterSet)
    ensures var r := TrimTrailing(s, cs);
      && |r| <= |s| && r == s[..|r|]
      && (r == [] || !cs.Contains(r[|r| - 1]))
      && (forall i :: |r| <= i < |s| ==> cs.Contains(s[i]))
  {
    if |s| > 0 && cs.Contains(s[|s| - 1]) {
      var init := s[..|s| - 1];
      TrimTrailingPrefix(init, cs);
      var r := TrimTrailing(s, cs);
      assert r == TrimTrailing(init, cs);
      assert r == init[..|r|];
      forall i | |r| <= i < |s| ensures cs.Contains(s[i]) {
        if i < |s| - 1 {
          assert s[i] == init[i];
        }
      }
    }
  }

  /** `trimmingCharacters(in: cs)`. */
  function Trim(s: string, cs: CharacterSet): string {
    TrimTrailing(TrimLeading(s, cs), cs)
  }

  /**
   * Trimming leaves text that neither starts nor ends with a character of the
   * set, and trimming that text again changes nothing.
   */
  lemma TrimTrims(s: string, cs: CharacterSet)
    ensures var r := Trim(s, cs);
      && (r == [] || (!cs.Contains(r[0]) && !cs.Contains(r[|r| - 1])))
      && Trim(r, cs) == r
  {
    var l := TrimLeading(s, cs);
    var r := TrimTrailing(l, cs);
    TrimLeadingSuffix(s, cs);
    TrimTrailingPrefix(l, cs);
    if r != [] {
      assert r[0] == l[0];
      TrimLeadingSuffix(r, cs);
      TrimTrailingPrefix(r, cs);
    } else {
      assert TrimLeading(r, cs) == r;
    }
  }

  /** `components(separatedBy: [c])[0]`: the text before the first `c`, or all of `s`. */
  function BeforeFirst(s: string, c: char): (r: string)
    ensures |r| <= |s| && r == s[..|r|]
    ensures c !in r
    ensures |r| < |s| ==> s[|r|] == c
  {
    if s == [] then []
    else if s[0] == c then []
    else [s[0]] + BeforeFirst(s[1..], c)
  }

  // ---------------------------------------------------------------- Characters

  /** A control character (general category Cc); a Character never extends past one. */
  predicate IsControl(c: char) {
    c as int < 0x20 || (0x7F <= c as int <= 0x9F)
  }

  /**
   * A character that joins the Character before it: the combining diacritical
   * marks U+0300 to U+036F and the zero-width joiner U+200D.
   */
  predicate IsExtend(c: char) {
    (0x300 <= c as int <= 0x36F) || c as int == 0x200D
  }

  /** The length of the run of joining characters that opens `s`. */
  function ExtendRun(s: string): (n: nat)
    ensures n <= |s|
    ensures forall i :: 0 <= i < n ==> IsExtend(s[i])
  {
    if |s| > 0 && IsExtend(s[0]) then 1 + ExtendRun(s[1..]) else 0
  }

  /**
   * Where the Swift `Character` that starts at position `i` of `s` ends:
   * "\r\n" is one Character, a control character stands alone, and any other
   * character takes the joining characters after it along.
   */
  function CharacterEnd(s: string, i: nat): (e: nat)
    requires i < |s|
    ensures i < e <= |s|
  {
    if s[i] == '\r' then (if i + 1 < |s| && s[i + 1] == '\n' then i + 2 else i + 1)
    else if IsControl(s[i]) then i + 1
    else i + 1 + ExtendRun(s[i + 1..])
  }

  /**
   * Where the first `n` Characters of `s` from position `i` end, or the end
   * of `s` when fewer than `n` are left.
   */
  function CharactersEnd(s: string, i: nat, n: nat): (e: nat)
    requires i <= |s|
    ensures i <= e <= |s|
    ensures e == |s| || i + n <= e
    decreases n
  {
    if n == 0 || i == |s| then i else CharactersEnd(s, CharacterEnd(s, i), n - 1)
  }

  /**
   * `String(s.prefix(n))`: the first `n` Characters of `s`, or all of it. It
   * is an opening of `s` that ends on a Character boundary, and it is at
   * least `n` characters long unless it is all of `s`.
   */
  function Prefix(s: string, n: nat): (r: string)
    ensures |r| <= |s| && r == s[..|r|]
    ensures |r| == |s| || n <= |r|
  {
    s[..CharactersEnd(s, 0, n)]
  }

  /** Where no Character is longer than one character, `k` Characters are `k` characters. */
  lemma {:induction false} CharactersEndSingle(s: string, i: nat, k: nat)
    requires i <= |s|
    requires forall j :: 0 <= j < |s| - 1 ==> !(s[j] == '\r' && s[j + 1] == '\n')
    requires forall j :: 0 <= j < |s| ==> !IsExtend(s[j])
    ensures CharactersEnd(s, i, k) == if |s| - i < k then |s| else i + k
    decreases k
  {
    if k > 0 && i < |s| {
      assert CharacterEnd(s, i) == i + 1 by {
        if !(s[i] == '\r') && !IsControl(s[i]) && i + 1 < |s| {
          assert !IsExtend(s[i + 1..][0]);
        }
      }
      CharactersEndSingle(s, i + 1, k - 1);
    }
  }

  /** On such strings `prefix(n)` takes `n` characters, as many as it can. */
  lemma PrefixSingle(s: string, n: nat)
    requires forall j :: 0 <= j < |s| - 1 ==> !(s[j] == '\r' && s[j + 1] == '\n')
    requires forall j :: 0 <= j < |s| ==> !IsExtend(s[j])
    ensures Prefix(s, n) == if |s| <= n then s else s[..n]
  {
    CharactersEndSingle(s, 0, n);
  }

  /**
   * A joining mark belongs to the Character before it: the first Character
   * of "e\u{301}x" is two characters long, and so is a one-Character prefix.
   */
  lemma PrefixJoinedExample()
    ensures Prefix("e\U{301}x", 1) == "e\U{301}"
  {
    var s := "e\U{301}x";
    assert CharacterEnd(s, 0) == 2 by {
      assert s[1..][0] == '\U{301}' && !IsExtend(s[1..][1..][0]);
    }
  }

  // ---------------------------------------------------------------- decimal digits

  predicate IsDigit(c: char) {
    '0' <= c <= '9'
  }

  function DigitChar(d: nat): (c: char)
    requires d < 10
    ensures IsDigit(c)
  {
    ('0' as int + d) as char
  }

  function DigitValue(c: char): nat
    requires IsDigit(c)
  {
    c as int - '0' as int
  }

  predicate AllDigits(s: string) {
    forall i :: 0 <= i < |s| ==> IsDigit(s[i])
  }

  /** `%d` for a natural number: its decimal digits, without leading zeros. */
  function Decimal(n: nat): (r: string)
    ensures |r| >= 1 && AllDigits(r)
    ensures n > 0 ==> r[0] != '0'
  {
    if n < 10 then [DigitChar(n)] else Decimal(n / 10) + [DigitChar(n % 10)]
  }

  /** The number a string of decimal digits denotes. */
  function DecimalValue(s: string): nat
    requires AllDigits(s)
  {
    if s == [] then 0 else DecimalValue(s[..|s| - 1]) * 10 + DigitValue(s[|s| - 1])
  }

  /** Reading back what `Decimal` printed gives the number. */
  lemma {:induction false} DecimalRoundTrip(n: nat)
    ensures DecimalValue(Decimal(n)) == n
  {
    if n >= 10 {
      var s := Decimal(n);
      assert s[..|s| - 1] == Decimal(n / 10);
      DecimalRoundTrip(n / 10);
    }
  }
}
