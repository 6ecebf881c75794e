/** The words of the board for folded and expanded ranges. */
module BoardWording {
  import opened Options
  import opened Projection

  function Ascii(text: string): (bytes: Text)
    ensures |bytes| == |text|
  {
    if text == "" then [] else [if text[0] < 128 as char then text[0] as int else 0x3F] + Ascii(text[1..])
  }

  lemma {:induction false} AsciiAt(text: string, i: nat)
    requires i < |text| && text[i] < 128 as char
    ensures Ascii(text)[i] == text[i] as int
  {
    if i > 0 { AsciiAt(text[1..], i - 1); }
  }

  const DOT: Text := [0x20, 0xC2, 0xB7, 0x20]

  function Digits(n: nat): Text { if n < 10 then [0x30 + n] else Digits(n / 10) + [0x30 + n % 10] }

  /** Digits in groups of three, counted from the right. */
  function Grouped(n: nat): Text {
    if n < 1000 then Digits(n) else Grouped(n / 1000) + [0x2C] + Digits(1000 + n % 1000)[1..]
  }

  function Remark(health: Health): string {
    match health
    case Available => ""
    case InCloud => "in iCloud"
    case Downloading => "downloading"
    case Inaccessible => "inaccessible"
  }

  function CollapsedSuffix(health: Health): Text {
    if health == Available then [] else DOT + Ascii(Remark(health))
  }

  function ExpandedSuffix(health: Health): (suffix: Text)
    ensures suffix == [] <==> health == Available
    ensures suffix != [] ==> suffix[0] == SPACE
  {
    if health == Available then [] else [SPACE, 0x5B] + Ascii(Remark(health)) + [0x5D]
  }

  /** A collapsed attachment without a number has no label. */
  function Label(kind: Kind, health: Health): Option<Text> {
    match kind
    case Attachment(_, None) => None
    case Attachment(image, Some(n)) =>
      Some(Ascii(if image then "[Image " else "[File ") + Digits(n) + CollapsedSuffix(health) + Ascii("]"))
    case LargePaste(lines, graphemes) =>
      Some(Ascii("[Pasted text") + DOT + Digits(lines) + Ascii(" lines") + DOT + Grouped(graphemes) +
           Ascii(" characters]"))
    case InvocationReference(name) => Some(name)
    case ShortcutEmphasis => Some([])
  }

  lemma WordingIsSound(annotations: seq<Annotation>)
    ensures Sound(Notes(annotations, Label, ExpandedSuffix))
  {
  }

  // ---------------------------------------------------------------------------------------------
  // Labels tell what they stand for

  predicate IsDigit(byte: Byte) { 0x30 <= byte <= 0x39 }

  /** The number that a text starts with; commas between its digits are skipped. */
  function NumberIn(text: Text, before: nat): nat {
    if text == [] then before
    else if IsDigit(text[0]) then NumberIn(text[1..], before * 10 + (text[0] - 0x30))
    else if text[0] == 0x2C then NumberIn(text[1..], before)
    else before
  }

  predicate IsNumeral(text: Text) { forall i :: 0 <= i < |text| ==> IsDigit(text[i]) || text[i] == 0x2C }

  /** Not a digit and not a comma, so the number before it ends there. */
  predicate EndsNumber(text: Text) { text != [] ==> !IsDigit(text[0]) && text[0] != 0x2C }

  lemma {:induction false} NumberGoesOn(numeral: Text, rest: Text, before: nat)
    requires IsNumeral(numeral)
    ensures NumberIn(numeral + rest, before) == NumberIn(rest, NumberIn(numeral, before))
    decreases |numeral|
  {
    if numeral == [] {
      assert numeral + rest == rest;
    } else {
      assert (numeral + rest)[1..] == numeral[1..] + rest && (numeral + rest)[0] == numeral[0];
      NumberGoesOn(numeral[1..], rest, if IsDigit(numeral[0]) then before * 10 + (numeral[0] - 0x30) else before);
    }
  }

  lemma {:induction false} DigitsReadBack(n: nat)
    ensures IsNumeral(Digits(n)) && NumberIn(Digits(n), 0) == n
    ensures 1000 <= n < 2000 ==> |Digits(n)| == 4 && NumberIn(Digits(n)[1..], 0) == n - 1000
  {
    if n >= 10 {
      DigitsReadBack(n / 10);
      NumberGoesOn(Digits(n / 10), [0x30 + n % 10], 0);
      OneDigit(n % 10, n / 10);
    } else {
      OneDigit(n, 0);
    }
    if 1000 <= n < 2000 { FourDigits(n); }
  }

  lemma OneDigit(digit: nat, before: nat)
    requires digit < 10
    ensures NumberIn([0x30 + digit], before) == before * 10 + digit
  {
    var text: Text := [0x30 + digit];
    assert text[1..] == [];
  }

  lemma FourDigits(n: nat)
    requires 1000 <= n < 2000
    ensures |Digits(n)| == 4 && IsNumeral(Digits(n)[1..])
    ensures forall before: nat :: NumberIn(Digits(n)[1..], before) == before * 1000 + (n - 1000)
  {
    var a, b, c := n / 100 % 10, n / 10 % 10, n % 10;
    assert Digits(n / 1000) == [0x31];
    assert n / 10 / 10 == n / 100 && n / 100 / 10 == n / 1000 == 1;
    var text: Text := [0x30 + a, 0x30 + b, 0x30 + c];
    assert Digits(n / 100) == [0x31] + [0x30 + a];
    assert Digits(n / 10) == [0x31] + [0x30 + a] + [0x30 + b];
    assert Digits(n) == [0x31] + [0x30 + a] + [0x30 + b] + [0x30 + c];
    assert Digits(n)[1..] == text;
    forall before: nat
      ensures NumberIn(text, before) == before * 1000 + (n - 1000)
    {
      assert text[1..] == [0x30 + b, 0x30 + c] && text[1..][1..] == [0x30 + c];
      OneDigit(c, (before * 10 + a) * 10 + b);
    }
  }

  /** Grouping changes no number. */
  lemma {:induction false} GroupedReadsBack(n: nat)
    ensures IsNumeral(Grouped(n)) && NumberIn(Grouped(n), 0) == n
  {
    if n < 1000 {
      DigitsReadBack(n);
    } else {
      GroupedReadsBack(n / 1000);
      FourDigits(1000 + n % 1000);
      var last := Digits(1000 + n % 1000)[1..];
      var comma: Text := [0x2C];
      assert comma[1..] == [];
      NumberGoesOn(Grouped(n / 1000), comma + last, 0);
      NumberGoesOn(comma, last, n / 1000);
      assert Grouped(n) == Grouped(n / 1000) + (comma + last);
    }
  }

  /** From the right, every fourth byte is a comma, and no other. */
  lemma {:induction false} GroupsOfThree(n: nat, i: nat)
    requires i < |Grouped(n)|
    ensures Grouped(n)[|Grouped(n)| - 1 - i] == 0x2C <==> i % 4 == 3
  {
    if n < 1000 {
      DigitsReadBack(n);
      FewDigits(n);
    } else {
      FourDigits(1000 + n % 1000);
      DigitsReadBack(1000 + n % 1000);
      NoCommas(1000 + n % 1000);
      if i >= 4 { GroupsOfThree(n / 1000, i - 4); }
    }
  }

  lemma {:induction false} NoCommas(n: nat)
    ensures forall i :: 0 <= i < |Digits(n)| ==> Digits(n)[i] != 0x2C
  {
    if n >= 10 { NoCommas(n / 10); }
  }

  lemma FewDigits(n: nat)
    requires n < 1000
    ensures |Digits(n)| <= 3 && forall i :: 0 <= i < |Digits(n)| ==> Digits(n)[i] != 0x2C
  {
    NoCommas(n);
    if n >= 100 {
      assert n / 10 / 10 == n / 100 < 10 && |Digits(n / 100)| == 1;
      assert |Digits(n / 10)| == 2;
    }
  }

  /** A numeral between words that are none shows its number. */
  lemma NumeralIsRead(words: Text, numeral: Text, rest: Text, n: nat)
    requires IsNumeral(numeral) && NumberIn(numeral, 0) == n && EndsNumber(rest)
    ensures words <= words + (numeral + rest) && NumberIn((words + (numeral + rest))[|words|..], 0) == n
  {
    assert (words + (numeral + rest))[|words|..] == numeral + rest;
    NumberGoesOn(numeral, rest, 0);
  }

  lemma Regrouped(a: Text, b: Text, c: Text, d: Text)
    ensures a + b + c + d == a + (b + (c + d)) && a + b + c + d == (a + b + c) + d
  {
  }

  lemma SuffixEndsNumber(health: Health)
    ensures EndsNumber(CollapsedSuffix(health) + Ascii("]"))
  {
    if health != Available { assert (CollapsedSuffix(health) + Ascii("]"))[0] == DOT[0]; }
  }

  /** What stands before and behind the number of an attachment's label. */
  function Before(image: bool): Text { Ascii(if image then "[Image " else "[File ") }

  /** The label of a numbered attachment shows its kind and its number. */
  lemma LabelsShowNumbers(image: bool, ordinal: nat, health: Health)
    ensures var shown := Label(Attachment(image, Some(ordinal)), health);
            && shown.Some? && Before(image) <= shown.value
            && NumberIn(shown.value[|Before(image)|..], 0) == ordinal
  {
    var suffix := CollapsedSuffix(health);
    DigitsReadBack(ordinal);
    SuffixEndsNumber(health);
    NumeralIsRead(Before(image), Digits(ordinal), suffix + Ascii("]"), ordinal);
    Regrouped(Before(image), Digits(ordinal), suffix, Ascii("]"));
  }

  /** And images and files are told apart by it. */
  lemma LabelsShowKinds(image: bool, ordinal: nat, health: Health)
    ensures Label(Attachment(image, Some(ordinal)), health).value[1] == if image then 0x49 else 0x46
  {
    AsciiAt(if image then "[Image " else "[File ", 1);
  }

  /** The label of a large paste shows its lines and, in groups of three digits, its characters. */
  lemma PasteLabelsShowCounts(lines: nat, graphemes: nat, health: Health)
    ensures var shown := Label(LargePaste(lines, graphemes), health);
            var words, middle := Ascii("[Pasted text") + DOT, Ascii(" lines") + DOT;
            && shown.Some? && words + Digits(lines) + middle <= shown.value
            && NumberIn(shown.value[|words|..], 0) == lines
            && NumberIn(shown.value[|words + Digits(lines) + middle|..], 0) == graphemes
  {
    PasteShowsCounts(Ascii("[Pasted text"), Ascii(" lines"), Ascii(" characters]"), lines, graphemes);
  }

  lemma PasteShowsCounts(first: Text, second: Text, third: Text, lines: nat, graphemes: nat)
    requires second != [] && !IsDigit(second[0]) && second[0] != 0x2C && EndsNumber(third)
    ensures var words, middle := first + DOT, second + DOT;
            var shown := first + DOT + Digits(lines) + second + DOT + Grouped(graphemes) + third;
            && words + Digits(lines) + middle <= shown
            && NumberIn(shown[|words|..], 0) == lines
            && NumberIn(shown[|words + Digits(lines) + middle|..], 0) == graphemes
  {
    var words, middle, last := first + DOT, second + DOT, Grouped(graphemes) + third;
    DigitsReadBack(lines);
    GroupedReadsBack(graphemes);
    NumeralIsRead(words, Digits(lines), middle + last, lines);
    NumeralIsRead(words + Digits(lines) + middle, Grouped(graphemes), third, graphemes);
    SevenParts(first, DOT, Digits(lines), second, DOT, Grouped(graphemes), third);
  }

  lemma SevenParts(a: Text, b: Text, c: Text, d: Text, e: Text, f: Text, g: Text)
    ensures a + b + c + d + e + f + g == (a + b) + (c + ((d + e) + (f + g)))
    ensures a + b + c + d + e + f + g == ((a + b) + c + (d + e)) + (f + g)
  {
    assert a + b + c + d + e + f + g == (a + b + c) + ((d + e) + (f + g)) by {
      assert a + b + c + d + e == (a + b + c) + (d + e);
      assert (a + b + c) + (d + e) + f + g == (a + b + c) + ((d + e) + (f + g));
    }
  }
}
