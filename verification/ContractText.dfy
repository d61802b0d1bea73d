/** The lines of a contract file: indentation, trimming, keys and numbers. */
module ContractText {
  import opened Options

  predicate Blank(c: char) { c == ' ' || c == '\t' }
  predicate Trailing(c: char) { Blank(c) || c == '\r' }

  /** The position of the first character that is no blank, or the length. */
  function Indent(s: string): (n: nat)
    ensures n <= |s| && (forall i :: 0 <= i < n ==> Blank(s[i])) && (n < |s| ==> !Blank(s[n]))
  {
    if s == "" || !Blank(s[0]) then 0 else 1 + Indent(s[1..])
  }

  /** The length of `s` without the blanks and carriage returns at its end. */
  function Kept(s: string): (n: nat)
    ensures n <= |s| && (forall i :: n <= i < |s| ==> Trailing(s[i])) && (n > 0 ==> !Trailing(s[n - 1]))
  {
    if s == "" || !Trailing(s[|s| - 1]) then |s| else Kept(s[..|s| - 1])
  }

  /** Blanks at both ends are dropped. If nothing but blanks and carriage returns is there, everything
      goes when it starts with a carriage return; otherwise an unsigned subtraction wraps around and the
      carriage returns stay. */
  function Trim(s: string): string {
    var a, b := Indent(s), Kept(s);
    if a == |s| then "" else if b == 0 then (if a == 0 then "" else s[a..]) else s[a..b]
  }

  datatype Line = Ignored | TabIndented | Text(indent: nat, t: string)

  function Lex(line: string): Line {
    var n := Indent(line);
    if n == |line| then Ignored
    else if '\t' in line[..n] then TabIndented
    else
      var t := Trim(line);
      if t == "" || t[0] == '#' then Ignored else Text(n, t)
  }

  // ---------------------------------------------------------------------------------------------
  // Keys
  // ---------------------------------------------------------------------------------------------

  datatype Key =
    | Write | Success | Nullable | Output | Schema | NameKey | Version | Symbols | Symbol | Platform | Os | Libc
    | Provenance | Ownership | FromParam | Index | DashIndex | Effect | KindKey | Returns | Params | Lifetime
    | BorrowKind | ConditionalEffects | Callbacks | Notes | AllocationFamily

  function KeyText(k: Key): string {
    match k
    case Write => "write:"
    case Success => "success:"
    case Nullable => "nullable:"
    case Output => "output:"
    case Schema => "schema:"
    case NameKey => "name:"
    case Version => "version:"
    case Symbols => "symbols:"
    case Symbol => "- symbol:"
    case Platform => "platform:"
    case Os => "os:"
    case Libc => "libc:"
    case Provenance => "provenance:"
    case Ownership => "ownership:"
    case FromParam => "from_param:"
    case Index => "index:"
    case DashIndex => "- index:"
    case Effect => "effect:"
    case KindKey => "kind:"
    case Returns => "returns:"
    case Params => "params:"
    case Lifetime => "lifetime:"
    case BorrowKind => "borrow_kind:"
    case ConditionalEffects => "conditional_effects:"
    case Callbacks => "callbacks:"
    case Notes => "notes:"
    case AllocationFamily => "allocation_family:"
  }

  /** The only key a text of this length and these characters can be. */
  function Guess(s: string): Option<Key>
    requires |s| >= 3
  {
    var n, c := |s|, s[0];
    if c == 'w' then Some(Write)
    else if c == 's' then (if n == 7 then Some(Schema) else if s[1] == 'u' then Some(Success) else Some(Symbols))
    else if c == 'n' then (if n == 9 then Some(Nullable) else if s[1] == 'a' then Some(NameKey) else Some(Notes))
    else if c == 'o' then (if n == 3 then Some(Os) else if n == 7 then Some(Output) else Some(Ownership))
    else if c == 'v' then Some(Version)
    else if c == '-' then (if s[2] == 's' then Some(Symbol) else Some(DashIndex))
    else if c == 'p' then (if n == 9 then Some(Platform) else if n == 7 then Some(Params) else Some(Provenance))
    else if c == 'l' then (if n == 5 then Some(Libc) else Some(Lifetime))
    else if c == 'f' then Some(FromParam)
    else if c == 'i' then Some(Index)
    else if c == 'e' then Some(Effect)
    else if c == 'k' then Some(KindKey)
    else if c == 'r' then Some(Returns)
    else if c == 'b' then Some(BorrowKind)
    else if c == 'c' then (if n == 10 then Some(Callbacks) else Some(ConditionalEffects))
    else if c == 'a' then Some(AllocationFamily)
    else None
  }

  /** The key that `s` is. */
  function KeyOf(s: string): Option<Key> {
    if |s| < 3 then None
    else
      var g := Guess(s);
      if g.Some? && KeyText(g.value) == s then g else None
  }

  lemma {:induction false} KeyTextsAreKeys(k: Key)
    ensures KeyOf(KeyText(k)) == Some(k)
  {
    match k
    case _ =>
  }

  lemma {:induction false} KeyOfExactly(s: string, k: Key)
    ensures KeyOf(s) == Some(k) <==> s == KeyText(k)
  {
    KeyTextsAreKeys(k);
  }

  /** The length of `t` up to and including its first colon, or 0 if it has none. */
  function ColonEnd(t: string): (n: nat)
    ensures n <= |t| && (n > 0 ==> t[n - 1] == ':') && forall i :: 0 <= i < n - 1 ==> t[i] != ':'
    ensures n == 0 ==> ':' !in t
  {
    if t == "" then 0
    else if t[0] == ':' then 1
    else
      var m := ColonEnd(t[1..]);
      assert forall i :: 1 <= i < |t| ==> t[i] == t[1..][i - 1];
      if m == 0 then 0 else m + 1
  }

  /** `t` starts with the key: no key has an inner colon. */
  function KeyIn(t: string): Option<Key> { KeyOf(t[..ColonEnd(t)]) }

  function Rest(t: string): string { t[ColonEnd(t)..] }

  function ValueIn(t: string): string { Trim(Rest(t)) }

  /** A line as the parser looks at it: the whole, its key, what follows the key, and that trimmed. */
  datatype Words = Words(whole: string, key: Option<Key>, rest: string, value: string)

  function Read(t: string): Words { Words(t, KeyIn(t), Rest(t), ValueIn(t)) }

  lemma {:induction false} ColonEndIs(t: string, n: nat)
    requires 0 < n <= |t| && t[n - 1] == ':' && forall i :: 0 <= i < n - 1 ==> t[i] != ':'
    ensures ColonEnd(t) == n
  {
  }

  /** The only colon is the last character, and the first is no blank and begins no comment. */
  predicate KeyLike(s: string) {
    && |s| > 2 && s[|s| - 1] == ':' && (forall i :: 0 <= i < |s| - 1 ==> s[i] != ':')
    && !Blank(s[0]) && s[0] != '#'
  }

  predicate FileKey(k: Key) {
    k.Schema? || k.NameKey? || k.Version? || k.Symbols? || k.Symbol? || k.Platform? || k.Os? || k.Libc? || k.Provenance?
  }

  predicate FactKey(k: Key) {
    k.KindKey? || k.Returns? || k.Params? || k.Ownership? || k.FromParam? || k.Index? || k.DashIndex? || k.Effect?
  }

  predicate BlockKey(k: Key) { k.Write? || k.Success? || k.Nullable? || k.Output? || k.Notes? || k.Lifetime? }

  lemma {:induction false} FileKeysAreKeyLike(k: Key)
    requires FileKey(k)
    ensures KeyLike(KeyText(k))
  {
    match k
    case _ =>
  }

  lemma {:induction false} FactKeysAreKeyLike(k: Key)
    requires FactKey(k)
    ensures KeyLike(KeyText(k))
  {
    match k
    case _ =>
  }

  lemma {:induction false} BlockKeysAreKeyLike(k: Key)
    requires BlockKey(k)
    ensures KeyLike(KeyText(k))
  {
    match k
    case _ =>
  }

  lemma {:induction false} OtherKeysAreKeyLike(k: Key)
    requires !FileKey(k) && !FactKey(k) && !BlockKey(k)
    ensures KeyLike(KeyText(k))
  {
    match k
    case _ =>
  }

  lemma {:induction false} KeyTextColon(k: Key)
    ensures KeyLike(KeyText(k))
  {
    if FileKey(k) { FileKeysAreKeyLike(k); }
    else if FactKey(k) { FactKeysAreKeyLike(k); }
    else if BlockKey(k) { BlockKeysAreKeyLike(k); }
    else { OtherKeysAreKeyLike(k); }
  }

  lemma {:induction false} FileKeysAreOneLine(k: Key)
    requires FileKey(k)
    ensures OneLine(KeyText(k))
  {
    match k
    case _ =>
  }

  lemma {:induction false} FactKeysAreOneLine(k: Key)
    requires FactKey(k)
    ensures OneLine(KeyText(k))
  {
    match k
    case _ =>
  }

  lemma {:induction false} OtherKeysAreOneLine(k: Key)
    requires !FileKey(k) && !FactKey(k)
    ensures OneLine(KeyText(k))
  {
    match k
    case _ =>
  }

  lemma {:induction false} KeysAreOneLine(k: Key)
    ensures OneLine(KeyText(k))
  {
    if FileKey(k) {
      FileKeysAreOneLine(k);
    } else if FactKey(k) {
      FactKeysAreOneLine(k);
    } else {
      OtherKeysAreOneLine(k);
    }
  }

  lemma {:induction false} PrintedKey(k: Key, rest: string)
    ensures KeyIn(KeyText(k) + rest) == Some(k) && Rest(KeyText(k) + rest) == rest
  {
    KeyTextColon(k);
    KeyTextsAreKeys(k);
    var t, n := KeyText(k) + rest, |KeyText(k)|;
    assert forall i :: 0 <= i < n ==> t[i] == KeyText(k)[i];
    ColonEndIs(t, n);
    assert t[..n] == KeyText(k) && t[n..] == rest;
  }

  // ---------------------------------------------------------------------------------------------
  // Numbers
  // ---------------------------------------------------------------------------------------------

  predicate Space(c: char) { Trailing(c) || c == '\n' || c == '\U{0B}' || c == '\U{0C}' }

  function SkipSpace(s: string): string {
    if s != "" && Space(s[0]) then SkipSpace(s[1..]) else s
  }

  predicate Digit(c: char) { '0' <= c <= '9' }

  predicate AllDigits(s: string) { forall c :: c in s ==> Digit(c) }

  function Magnitude(s: string): nat
    requires AllDigits(s)
  {
    if s == "" then 0
    else
      assert s[|s| - 1] in s;
      Magnitude(s[..|s| - 1]) * 10 + (s[|s| - 1] as int - '0' as int)
  }

  const MAX_LONG := 0xFFFF_FFFF_FFFF_FFFF
  const MAX_UNSIGNED := 0xFFFF_FFFF

  /** A whole decimal number: leading space and a sign are read, and a negative number wraps around in
      64 bits before it is compared with the 32-bit bound. */
  function ParseUnsigned(text: string): Option<nat> {
    var s := SkipSpace(text);
    var body := if s != "" && (s[0] == '-' || s[0] == '+') then s[1..] else s;
    if body == "" || !AllDigits(body) || Magnitude(body) > MAX_LONG then None
    else
      var m := Magnitude(body);
      var value := if s[0] == '-' && m > 0 then MAX_LONG + 1 - m else m;
      if value > MAX_UNSIGNED then None else Some(value)
  }

  /** Blanks, a sign and digits. */
  predicate WrittenAs(text: string, blanks: string, sign: string, digits: string) {
    && text == blanks + sign + digits && (forall c :: c in blanks ==> Space(c)) && sign in {"", "+", "-"}
    && digits != "" && AllDigits(digits)
  }

  /** A number is given by its digits; with a minus it is taken from the end of 64 bits. */
  function NumberGiven(sign: string, digits: string): Option<nat>
    requires AllDigits(digits)
  {
    var m := Magnitude(digits);
    if sign != "-" || m == 0 then (if m <= MAX_UNSIGNED then Some(m) else None)
    else if MAX_LONG - MAX_UNSIGNED < m <= MAX_LONG then Some(MAX_LONG + 1 - m)
    else None
  }

  lemma {:induction false} SkipBlanks(blanks: string, rest: string)
    requires (forall c :: c in blanks ==> Space(c)) && (rest == "" || !Space(rest[0]))
    ensures SkipSpace(blanks + rest) == rest
    decreases |blanks|
  {
    if blanks == "" {
      assert blanks + rest == rest;
    } else {
      assert blanks[0] in blanks && (blanks + rest)[1..] == blanks[1..] + rest;
      assert forall c :: c in blanks[1..] ==> c in blanks;
      SkipBlanks(blanks[1..], rest);
    }
  }

  lemma {:induction false} SkippedBlanks(s: string) returns (blanks: string)
    ensures s == blanks + SkipSpace(s) && forall c :: c in blanks ==> Space(c)
  {
    if s != "" && Space(s[0]) {
      var rest := SkippedBlanks(s[1..]);
      blanks := [s[0]] + rest;
      assert s == [s[0]] + s[1..];
    } else {
      blanks := "";
    }
  }

  lemma {:induction false} WrittenIsRead(text: string, blanks: string, sign: string, digits: string)
    requires WrittenAs(text, blanks, sign, digits)
    ensures ParseUnsigned(text) == NumberGiven(sign, digits)
  {
    var s := sign + digits;
    assert digits[0] in digits && s[0] == if sign == "" then digits[0] else sign[0];
    DigitIsPlain(digits[0]);
    assert text == blanks + s;
    SkipBlanks(blanks, s);
    assert (if sign == "" then s else s[1..]) == digits;
  }

  /** A text is a number exactly if it is written as one, with a value of 32 bits. */
  lemma {:induction false} NumberExactly(text: string, n: nat)
    ensures ParseUnsigned(text) == Some(n) <==>
      exists blanks, sign, digits :: WrittenAs(text, blanks, sign, digits) && NumberGiven(sign, digits) == Some(n)
  {
    if ParseUnsigned(text) == Some(n) {
      var s := SkipSpace(text);
      var blanks := SkippedBlanks(text);
      var sign := if s != "" && (s[0] == '-' || s[0] == '+') then [s[0]] else "";
      var digits := if sign == "" then s else s[1..];
      assert s == sign + digits;
      assert WrittenAs(text, blanks, sign, digits);
      WrittenIsRead(text, blanks, sign, digits);
    }
    if blanks, sign, digits :| WrittenAs(text, blanks, sign, digits) && NumberGiven(sign, digits) == Some(n) {
      WrittenIsRead(text, blanks, sign, digits);
    }
  }

  function Decimal(n: nat): string {
    (if n < 10 then "" else Decimal(n / 10)) + ['0' + (n % 10) as char]
  }

  lemma {:induction false} DecimalReadsBack(n: nat)
    ensures Decimal(n) != "" && AllDigits(Decimal(n)) && Magnitude(Decimal(n)) == n
  {
    var s := Decimal(n);
    if n >= 10 {
      DecimalReadsBack(n / 10);
      assert s[..|s| - 1] == Decimal(n / 10);
    } else {
      assert s[..|s| - 1] == "";
    }
  }

  lemma {:induction false} DigitIsPlain(c: char)
    requires Digit(c)
    ensures !Space(c) && c != '-' && c != '+' && c != '#'
  {
  }

  lemma {:induction false} DigitsAreOneLine(s: string)
    requires AllDigits(s)
    ensures OneLine(s)
  {
    forall i | 0 <= i < |s| ensures s[i] != '\n' {
      assert s[i] in s;
    }
  }

  lemma {:induction false} NumberReadsBack(n: nat)
    requires n <= MAX_UNSIGNED
    ensures ParseUnsigned(Decimal(n)) == Some(n) && Clean(Decimal(n))
  {
    DecimalReadsBack(n);
    var s := Decimal(n);
    assert s[0] in s && s[|s| - 1] in s;
    DigitIsPlain(s[0]);
    DigitIsPlain(s[|s| - 1]);
    DigitsAreOneLine(s);
    assert SkipSpace(s) == s;
  }

  // ---------------------------------------------------------------------------------------------
  // Printed lines
  // ---------------------------------------------------------------------------------------------

  predicate OneLine(s: string) { forall i :: 0 <= i < |s| ==> s[i] != '\n' }

  /** The lines of a file hold no line breaks. */
  predicate FileLines(lines: seq<string>) { forall i :: 0 <= i < |lines| ==> OneLine(lines[i]) }

  /** Nothing to trim. */
  predicate Trimmed(s: string) { s != "" && !Blank(s[0]) && !Trailing(s[|s| - 1]) }

  /** Nothing to trim, and all on one line. */
  predicate Clean(s: string) { Trimmed(s) && OneLine(s) }

  lemma {:induction false} TrimAfterBlank(s: string)
    requires Trimmed(s)
    ensures Trim(" " + s) == s
  {
    var t := " " + s;
    assert t[1..] == s && t[|t| - 1] == s[|s| - 1];
    assert Indent(t) == 1 && Kept(t) == |t|;
  }

  function Spaces(n: nat): string { seq(n, _ => ' ') }

  lemma {:induction false} TrimPrinted(n: nat, t: string)
    requires Trimmed(t)
    ensures Indent(Spaces(n) + t) == n && Trim(Spaces(n) + t) == t
  {
    var line := Spaces(n) + t;
    assert line[n] == t[0] && line[|line| - 1] == t[|t| - 1];
    IndentIs(line, n);
    assert Kept(line) == |line| && line[n..|line|] == t;
  }

  /** An indented clean line that is no comment is read as it was written. */
  lemma {:induction false} LexPrinted(n: nat, t: string)
    requires Trimmed(t) && t[0] != '#'
    ensures Lex(Spaces(n) + t) == Text(n, t)
  {
    TrimPrinted(n, t);
    NoTabs(n, t);
  }

  lemma {:induction false} NoTabs(n: nat, t: string)
    ensures '\t' !in (Spaces(n) + t)[..n]
  {
    assert (Spaces(n) + t)[..n] == Spaces(n);
  }

  lemma {:induction false} IndentIs(s: string, n: nat)
    requires n < |s| && (forall i :: 0 <= i < n ==> Blank(s[i])) && !Blank(s[n])
    ensures Indent(s) == n
  {
    if n > 0 { IndentIs(s[1..], n - 1); }
  }

  /** The value after a key in a line that has been trimmed is clean, if there is any. */
  lemma {:induction false} ValuesAreClean(line: string)
    requires OneLine(line) && Lex(line).Text? && KeyIn(Lex(line).t).Some?
    ensures var v := ValueIn(Lex(line).t); v == "" || Clean(v)
  {
    LexedEnds(line);
    TrimIsOneLine(line);
    RestIsTrimmed(Lex(line).t);
  }

  lemma {:induction false} TrimIsOneLine(s: string)
    requires OneLine(s)
    ensures OneLine(Trim(s))
  {
  }

  lemma {:induction false} RestIsTrimmed(t: string)
    requires t != "" && !Trailing(t[|t| - 1]) && OneLine(t)
    ensures ValueIn(t) == "" || Clean(ValueIn(t))
  {
    var rest := Rest(t);
    TrimIsOneLine(rest);
    if rest != "" {
      assert rest[|rest| - 1] == t[|t| - 1];
      assert Kept(rest) == |rest|;
    }
  }

  lemma {:induction false} TrailingHasNoKey(t: string)
    requires forall i :: 0 <= i < |t| ==> Trailing(t[i])
    ensures KeyIn(t) == None
  {
    assert ColonEnd(t) == 0;
  }

  lemma {:induction false} TrimEnds(s: string)
    requires Kept(s) > 0
    ensures Trim(s) != "" && !Trailing(Trim(s)[|Trim(s)| - 1])
  {
    var a, b := Indent(s), Kept(s);
    assert !Trailing(s[b - 1]);
    assert a <= b - 1;
    assert Trim(s) == s[a..b];
  }

  /** A trimmed line with a key in it ends in something that is not trimmed. */
  lemma {:induction false} LexedEnds(line: string)
    requires Lex(line).Text? && KeyIn(Lex(line).t).Some?
    ensures var t := Lex(line).t; t != "" && !Trailing(t[|t| - 1])
  {
    assert Lex(line).t == Trim(line);
    if Kept(line) == 0 {
      TrailingHasNoKey(line[Indent(line)..]);
    } else {
      TrimEnds(line);
    }
  }
}
