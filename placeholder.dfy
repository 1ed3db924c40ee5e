/**
 * Placeholder expansion (PlaceholderProcessor): markers `%{NAME}%` and
 * `%{NAME[i]}%` in a text are replaced by the context parameter they name,
 * and the text is scanned again until no marker is left.
 *
 * The scanner that finds the markers (InputParser::extractElements) is not
 * part of this model; ExtractElements below is the scanner this model
 * assumes, with NAME a non-empty run of ASCII letters, digits and `_`, and i
 * an optionally negative decimal integer.
 */
module Placeholders {
  import opened Common
  import opened Values

  datatype ElementType = Placeholder | OtherElement
  datatype ElementSubType = Plain | Indexed

  /** A marker found in a text: its name, kind, index and the exact text matched. */
  datatype ParsedElement = ParsedElement(
    elementName: string,
    elementType: ElementType,
    elementSubType: ElementSubType,
    index: Option<int>,
    fullElementMatch: string)

  // ---------------------------------------------------------------------
  // Scanning

  predicate NameChar(c: char)
  {
    'a' <= c <= 'z' || 'A' <= c <= 'Z' || '0' <= c <= '9' || c == '_'
  }

  predicate IsName(s: string)
  {
    |s| > 0 && forall k :: 0 <= k < |s| ==> NameChar(s[k])
  }

  /** The length of the run of name characters starting at `i`. */
  function NameLength(text: string, i: nat): (n: nat)
    requires i <= |text|
    ensures i + n <= |text|
    ensures forall k :: i <= k < i + n ==> NameChar(text[k])
    ensures i + n == |text| || !NameChar(text[i + n])
    decreases |text| - i
  {
    if i < |text| && NameChar(text[i]) then 1 + NameLength(text, i + 1) else 0
  }

  /** The length of the run of decimal digits starting at `i`. */
  function DigitsLength(text: string, i: nat): (n: nat)
    requires i <= |text|
    ensures i + n <= |text|
    ensures forall k :: i <= k < i + n ==> IsDigit(text[k])
    ensures i + n == |text| || !IsDigit(text[i + n])
    decreases |text| - i
  {
    if i < |text| && IsDigit(text[i]) then 1 + DigitsLength(text, i + 1) else 0
  }

  /** `lit` is written in `text` at position `i`. */
  predicate HasAt(text: string, i: nat, lit: string)
  {
    i + |lit| <= |text| && text[i..i + |lit|] == lit
  }

  /** The marker that starts at position `i`, if one does. */
  function MarkerAt(text: string, i: nat): (r: Option<ParsedElement>)
    requires i <= |text|
    ensures r.Some? ==> WellFormedAt(text, i, r.value)
  {
    if !HasAt(text, i, "%{") then None
    else
      var n := NameLength(text, i + 2);
      if n == 0 then None else MarkerEnd(text, i, i + 2 + n)
  }

  /**
   * What the scanner reports about a marker at `i`: the matched text is
   * written there and spells `%{NAME}%` with no index, or `%{NAME[d]}%`
   * with d a signed number that denotes the index.
   */
  ghost predicate WellFormedAt(text: string, i: nat, e: ParsedElement)
  {
    && e.elementType == Placeholder
    && IsName(e.elementName)
    && HasAt(text, i, e.fullElementMatch)
    && match e.elementSubType
       case Plain => e.index.None? && e.fullElementMatch == "%{" + e.elementName + "}%"
       case Indexed =>
         && e.index.Some?
         && exists d :: ParseSignedDigits(d) == e.index && e.fullElementMatch == "%{" + e.elementName + "[" + d + "]}%"
  }

  /** The rest of a marker whose name runs from `i + 2` to `j`: `}%`, or an index. */
  function MarkerEnd(text: string, i: nat, j: nat): (r: Option<ParsedElement>)
    requires HasAt(text, i, "%{") && i + 2 < j <= |text|
    requires forall k :: i + 2 <= k < j ==> NameChar(text[k])
    ensures r.Some? ==> WellFormedAt(text, i, r.value)
  {
    if HasAt(text, j, "}%") then
      PlainWellFormed(text, i, j);
      Some(ParsedElement(text[i + 2..j], Placeholder, Plain, None, text[i..j + 2]))
    else if HasAt(text, j, "[") then
      match IndexTail(text, j + 1)
      case Some((index, end)) =>
        IndexTailParses(text, j + 1, index, end);
        IndexedWellFormed(text, i, j, index, end);
        Some(ParsedElement(text[i + 2..j], Placeholder, Indexed, Some(index), text[i..end]))
      case None => None
    else None
  }

  /** A marker start, a name and `}%` form a well-formed plain marker. */
  lemma PlainWellFormed(text: string, i: nat, j: nat)
    requires HasAt(text, i, "%{") && i + 2 < j && HasAt(text, j, "}%")
    requires forall k :: i + 2 <= k < j ==> NameChar(text[k])
    ensures WellFormedAt(text, i, ParsedElement(text[i + 2..j], Placeholder, Plain, None, text[i..j + 2]))
  {
    assert text[i..j + 2] == text[i..i + 2] + text[i + 2..j] + text[j..j + 2];
  }

  /** A marker start, a name, `[`, signed digits and `]}%` form a well-formed indexed marker. */
  lemma IndexedWellFormed(text: string, i: nat, j: nat, index: int, end: nat)
    requires HasAt(text, i, "%{") && i + 2 < j && j + 4 <= end <= |text|
    requires HasAt(text, j, "[") && HasAt(text, end - 3, "]}%")
    requires forall k :: i + 2 <= k < j ==> NameChar(text[k])
    requires ParseSignedDigits(text[j + 1..end - 3]) == Some(index)
    ensures WellFormedAt(text, i, ParsedElement(text[i + 2..j], Placeholder, Indexed, Some(index), text[i..end]))
  {
    IndexedSpelling(text, i, j, end);
  }

  /** The text of an indexed marker is its parts put together. */
  lemma IndexedSpelling(text: string, i: nat, j: nat, end: nat)
    requires HasAt(text, i, "%{") && i + 2 < j && j + 4 <= end <= |text|
    requires HasAt(text, j, "[") && HasAt(text, end - 3, "]}%")
    ensures text[i..end] == "%{" + text[i + 2..j] + "[" + text[j + 1..end - 3] + "]}%"
  {
    assert text[i..end] == text[i..i + 2] + text[i + 2..j] + text[j..j + 1] + text[j + 1..end - 3] + text[end - 3..end];
  }

  /**
   * The index of an indexed marker, from position `k` just after its `[`: an
   * optional `-`, at least one digit and `]}%`. Gives the index and the
   * position just past the marker.
   */
  function IndexTail(text: string, k: nat): (r: Option<(int, nat)>)
    requires k <= |text|
    ensures r.Some? ==> k + 4 <= r.value.1 <= |text| && HasAt(text, r.value.1 - 3, "]}%")
  {
    var sign := if k < |text| && text[k] == '-' then 1 else 0;
    var d := DigitsLength(text, k + sign);
    var e := k + sign + d;
    if d > 0 && HasAt(text, e, "]}%") then
      match ParseSignedDigits(text[k..e])
      case Some(index) => Some((index, e + 3))
      case None => None
    else None
  }

  /** The index IndexTail gives is what the signed digits before `]}%` denote. */
  lemma IndexTailParses(text: string, k: nat, index: int, end: nat)
    requires k <= |text| && IndexTail(text, k) == Some((index, end))
    ensures k + 4 <= end <= |text| && HasAt(text, end - 3, "]}%")
    ensures ParseSignedDigits(text[k..end - 3]) == Some(index)
  {
  }

  /** The markers of `text` from position `i` on, left to right, without overlap. */
  function ExtractFrom(text: string, i: nat): (es: seq<ParsedElement>)
    requires i <= |text|
    ensures forall e :: e in es ==> e.elementType == Placeholder && ContainsText(text, e.fullElementMatch)
    decreases |text| - i
  {
    if i == |text| then []
    else match MarkerAt(text, i)
      case Some(e) =>
        OccursInText(text, e.fullElementMatch, i);
        [e] + ExtractFrom(text, i + |e.fullElementMatch|)
      case None => ExtractFrom(text, i + 1)
  }

  lemma OccursInText(text: string, needle: string, i: nat)
    requires HasAt(text, i, needle)
    ensures ContainsText(text, needle)
  {
    ContainsTextAt(text, needle);
    assert OccursAt(text, needle, i);
  }

  function ExtractElements(text: string): seq<ParsedElement>
  {
    ExtractFrom(text, 0)
  }

  /** The text of a marker. */
  function MarkerText(name: string, subType: ElementSubType, index: int): string
  {
    match subType
    case Plain => "%{" + name + "}%"
    case Indexed => "%{" + name + "[" + IntToString(index) + "]}%"
  }

  // ---------------------------------------------------------------------
  // Replacing

  /**
   * getValueForPlaceholder: a plain marker gives the parameter cast to
   * string; an indexed one gives the element at the index when the parameter
   * is an array and the index is in range, and "" otherwise.
   */
  function ValueForPlaceholder(e: ParsedElement, ctx: Context): (v: string)
    ensures e.elementSubType == Plain ==> v == Stringify(Lookup(ctx, e.elementName))
    ensures e.elementSubType == Indexed && !Lookup(ctx, e.elementName).List? ==> v == ""
    ensures e.elementSubType == Indexed && Lookup(ctx, e.elementName).List? ==>
      var items := Lookup(ctx, e.elementName).items;
      if e.index.Some? && 0 <= e.index.value < |items| then v == Stringify(items[e.index.value]) else v == ""
  {
    match e.elementSubType
    case Plain => Stringify(Lookup(ctx, e.elementName))
    case Indexed =>
      var param := Lookup(ctx, e.elementName);
      if !param.List? then ""
      else if e.index.Some? && 0 <= e.index.value < |param.items| then Stringify(param.items[e.index.value])
      else ""
  }

  /** str_replace: every occurrence of `search`, left to right and not overlapping. */
  function ReplaceAll(subject: string, search: string, replacement: string): (r: string)
  {
    if search == [] then subject else ReplaceFrom(subject, search, replacement)
  }

  function ReplaceFrom(subject: string, search: string, replacement: string): string
    requires search != []
    decreases |subject|
  {
    if subject == [] then []
    else if IsPrefix(search, subject) then replacement + ReplaceFrom(subject[|search|..], search, replacement)
    else [subject[0]] + ReplaceFrom(subject[1..], search, replacement)
  }

  /** One pass of the `foreach`: every placeholder element's text is replaced by its value. */
  function SubstituteAll(text: string, elements: seq<ParsedElement>, ctx: Context): string
    decreases |elements|
  {
    if elements == [] then text
    else
      var e := elements[0];
      var next := if e.elementType == Placeholder
                  then ReplaceAll(text, e.fullElementMatch, ValueForPlaceholder(e, ctx))
                  else text;
      SubstituteAll(next, elements[1..], ctx)
  }

  /**
   * The `do … while` of process, allowed at most `fuel` passes, with `scan`
   * as the re-scan after each pass: None when the passes run out before a
   * re-scan comes back empty. The lemmas about passes hold for any scanner.
   */
  function ProcessWith(scan: string -> seq<ParsedElement>, text: string, elements: seq<ParsedElement>,
                       ctx: Context, fuel: nat): Option<string>
    decreases fuel
  {
    if fuel == 0 then None
    else
      var next := SubstituteAll(text, elements, ctx);
      var found := scan(next);
      if found == [] then Some(next) else ProcessWith(scan, next, found, ctx, fuel - 1)
  }

  /** process with the scanner of this model. */
  function ProcessSpec(text: string, ctx: Context, fuel: nat): Option<string>
  {
    ProcessWith(ExtractElements, text, ExtractElements(text), ctx, fuel)
  }

  /** PlaceholderProcessor::process, with the number of passes bounded by `fuel`. */
  method Process(text: string, ctx: Context, fuel: nat) returns (r: Option<string>)
    ensures r == ProcessSpec(text, ctx, fuel)
  {
    var placeholders := ExtractElements(text);
    r := ProcessLoop(ExtractElements, text, placeholders, ctx, fuel);
  }

  /**
   * The loop of process: substitute the elements found, re-scan with `scan`,
   * and go on while the scan finds something.
   */
  method ProcessLoop(scan: string -> seq<ParsedElement>, text: string, elements: seq<ParsedElement>,
                     ctx: Context, fuel: nat) returns (r: Option<string>)
    ensures r == ProcessWith(scan, text, elements, ctx, fuel)
  {
    var current := text;
    var placeholders := elements;
    var passes := fuel;
    while true
      invariant ProcessWith(scan, current, placeholders, ctx, passes) == ProcessWith(scan, text, elements, ctx, fuel)
      decreases passes
    {
      if passes == 0 {
        return None;
      }
      var next := Substitute(current, placeholders, ctx);
      var found := scan(next);
      ProcessStep(scan, current, placeholders, ctx, passes, next, found);
      if found == [] {
        return Some(next);
      }
      current, placeholders, passes := next, found, passes - 1;
    }
  }

  /** One pass: substitute, re-scan, and stop or go on with what the scan found. */
  lemma ProcessStep(scan: string -> seq<ParsedElement>, text: string, elements: seq<ParsedElement>, ctx: Context,
                    fuel: nat, next: string, found: seq<ParsedElement>)
    requires fuel > 0 && next == SubstituteAll(text, elements, ctx) && found == scan(next)
    ensures found == [] ==> ProcessWith(scan, text, elements, ctx, fuel) == Some(next)
    ensures found != [] ==> ProcessWith(scan, text, elements, ctx, fuel) == ProcessWith(scan, next, found, ctx, fuel - 1)
  {
  }

  /** The `foreach` of process: each placeholder element in turn replaced in the text. */
  method Substitute(text: string, placeholders: seq<ParsedElement>, ctx: Context) returns (r: string)
    ensures r == SubstituteAll(text, placeholders, ctx)
  {
    r := text;
    var k := 0;
    while k < |placeholders|
      invariant 0 <= k <= |placeholders|
      invariant SubstituteAll(text, placeholders, ctx) == SubstituteAll(r, placeholders[k..], ctx)
    {
      assert placeholders[k..][1..] == placeholders[k + 1..];
      var e := placeholders[k];
      if e.elementType == Placeholder {
        r := ReplaceAll(r, e.fullElementMatch, ValueForPlaceholder(e, ctx));
      }
      k := k + 1;
    }
  }

  // ---------------------------------------------------------------------
  // Properties

  /** When process returns, a final scan of its result finds nothing. */
  lemma {:induction false} ProcessFixedPoint(scan: string -> seq<ParsedElement>, text: string,
                                             elements: seq<ParsedElement>, ctx: Context, fuel: nat)
    requires ProcessWith(scan, text, elements, ctx, fuel).Some?
    ensures scan(ProcessWith(scan, text, elements, ctx, fuel).value) == []
    decreases fuel
  {
    var next := SubstituteAll(text, elements, ctx);
    var found := scan(next);
    ProcessStep(scan, text, elements, ctx, fuel, next, found);
    if found != [] {
      ProcessFixedPoint(scan, next, found, ctx, fuel - 1);
    }
  }

  /** More passes never change a result that fewer passes already reached. */
  lemma {:induction false} ProcessFuelMonotone(scan: string -> seq<ParsedElement>, text: string,
                                               elements: seq<ParsedElement>, ctx: Context, fuel: nat, more: nat)
    requires fuel <= more && ProcessWith(scan, text, elements, ctx, fuel).Some?
    ensures ProcessWith(scan, text, elements, ctx, more) == ProcessWith(scan, text, elements, ctx, fuel)
    decreases fuel
  {
    var next := SubstituteAll(text, elements, ctx);
    var found := scan(next);
    ProcessStep(scan, text, elements, ctx, fuel, next, found);
    ProcessStep(scan, text, elements, ctx, more, next, found);
    if found != [] {
      ProcessFuelMonotone(scan, next, found, ctx, fuel - 1, more - 1);
    }
  }

  /** Text in which the scanner finds nothing comes back unchanged after one pass. */
  lemma ProcessWithoutMarkers(text: string, ctx: Context, fuel: nat)
    requires ExtractElements(text) == [] && fuel >= 1
    ensures ProcessSpec(text, ctx, fuel) == Some(text)
  {
  }

  /** Elements that are not placeholders are left alone by a pass. */
  lemma {:induction false} SubstituteSkipsOthers(text: string, elements: seq<ParsedElement>, ctx: Context)
    requires forall e :: e in elements ==> e.elementType != Placeholder
    ensures SubstituteAll(text, elements, ctx) == text
    decreases |elements|
  {
    if elements != [] {
      assert elements[0] in elements;
      assert forall e :: e in elements[1..] ==> e in elements;
      SubstituteSkipsOthers(text, elements[1..], ctx);
    }
  }

  /** A text without the searched string is left as it is. */
  lemma {:induction false} ReplaceWithoutOccurrence(subject: string, search: string, replacement: string)
    requires !ContainsText(subject, search)
    ensures ReplaceAll(subject, search, replacement) == subject
    decreases |subject|
  {
    if search != [] && subject != [] {
      ReplaceWithoutOccurrence(subject[1..], search, replacement);
      assert subject == [subject[0]] + subject[1..];
    }
  }

  /** Replacing a string by itself changes nothing. */
  lemma {:induction false} ReplaceBySelf(subject: string, search: string)
    ensures ReplaceAll(subject, search, search) == subject
    decreases |subject|
  {
    if search != [] && subject != [] {
      if IsPrefix(search, subject) {
        ReplaceBySelf(subject[|search|..], search);
        assert subject == subject[..|search|] + subject[|search|..];
      } else {
        ReplaceBySelf(subject[1..], search);
        assert subject == [subject[0]] + subject[1..];
      }
    }
  }

  /** A text that is exactly the searched string becomes the replacement. */
  lemma ReplaceWhole(search: string, replacement: string)
    requires search != []
    ensures ReplaceAll(search, search, replacement) == replacement
  {
    assert IsPrefix(search, search);
    assert search[|search|..] == [];
    assert ReplaceFrom(search[|search|..], search, replacement) == [];
  }

  // ---- the scanner on markers

  lemma {:induction false} NameRun(text: string, i: nat, n: nat)
    requires i + n <= |text|
    requires forall k :: i <= k < i + n ==> NameChar(text[k])
    requires i + n == |text| || !NameChar(text[i + n])
    ensures NameLength(text, i) == n
    decreases n
  {
    if n > 0 {
      NameRun(text, i + 1, n - 1);
    }
  }

  lemma {:induction false} DigitRun(text: string, i: nat, n: nat)
    requires i + n <= |text|
    requires forall k :: i <= k < i + n ==> IsDigit(text[k])
    requires i + n == |text| || !IsDigit(text[i + n])
    ensures DigitsLength(text, i) == n
    decreases n
  {
    if n > 0 {
      DigitRun(text, i + 1, n - 1);
    }
  }

  /** The scanner reads a plain marker back as the element it denotes. */
  lemma PlainMarkerAt(name: string)
    requires IsName(name)
    ensures MarkerAt(MarkerText(name, Plain, 0), 0) ==
      Some(ParsedElement(name, Placeholder, Plain, None, MarkerText(name, Plain, 0)))
  {
    var m := MarkerText(name, Plain, 0);
    var j := 2 + |name|;
    assert m[..2] == "%{";
    assert m[2..j] == name;
    assert m[j..j + 2] == "}%";
    NameRun(m, 2, |name|);
    assert m[0..j + 2] == m;
  }

  /** The scanner reads an indexed marker back as the element it denotes. */
  lemma IndexedMarkerAt(name: string, index: int)
    requires IsName(name)
    ensures MarkerAt(MarkerText(name, Indexed, index), 0) ==
      Some(ParsedElement(name, Placeholder, Indexed, Some(index), MarkerText(name, Indexed, index)))
  {
    var m := MarkerText(name, Indexed, index);
    var digits := IntToString(index);
    var sign := if index < 0 then 1 else 0;
    var j := 2 + |name|;
    SignedDigits(index, digits, sign);
    IndexedLayout(m, name, digits, j);
    IndexedMarkerRead(m, name, digits, sign, index, j);
  }

  /** The decimal text of an integer: an optional `-`, then digits, which read back as the integer. */
  lemma SignedDigits(index: int, digits: string, sign: nat)
    requires digits == IntToString(index) && sign == if index < 0 then 1 else 0
    ensures |digits| > sign && AllDigits(digits[sign..])
    ensures sign == 1 <==> digits[0] == '-'
    ensures ParseSignedDigits(digits) == Some(index)
  {
    var natDigits := NatToString(if index < 0 then -index else index);
    assert digits[sign..] == natDigits;
    assert index < 0 <==> digits[0] == '-' by {
      if index >= 0 {
        assert IsDigit(natDigits[0]);
      }
    }
    IntToStringRoundTrip(index);
    ParseUnpadded(digits);
  }

  /** The scanner on a text laid out as an indexed marker whose name ends at `j`. */
  lemma IndexedMarkerRead(m: string, name: string, digits: string, sign: nat, index: int, j: nat)
    requires IsName(name) && j == 2 + |name| && |m| == j + |digits| + 4
    requires m[..2] == "%{" && m[2..j] == name && m[j] == '['
    requires m[j + 1..j + 1 + |digits|] == digits
    requires HasAt(m, j + 1 + |digits|, "]}%")
    requires sign <= 1 && |digits| > sign && AllDigits(digits[sign..])
    requires sign == 1 <==> digits[0] == '-'
    requires ParseSignedDigits(digits) == Some(index)
    ensures MarkerAt(m, 0) == Some(ParsedElement(name, Placeholder, Indexed, Some(index), m))
  {
    IndexTailRead(m, j + 1, digits, sign, index, |m|);
    MarkerHead(m, name, j);
    IndexedMarkerEnd(m, 0, j, index, |m|);
    assert m[0..|m|] == m;
  }

  /** A text that starts with `%{`, a name and `[`: the scanner goes on to read an index. */
  lemma MarkerHead(m: string, name: string, j: nat)
    requires IsName(name) && j == 2 + |name| && j < |m|
    requires m[..2] == "%{" && m[2..j] == name && m[j] == '['
    ensures MarkerAt(m, 0) == MarkerEnd(m, 0, j)
    ensures forall k :: 2 <= k < j ==> NameChar(m[k])
    ensures !HasAt(m, j, "}%") && HasAt(m, j, "[")
  {
    NameRun(m, 2, |name|);
    assert HasAt(m, 0, "%{") by {
      assert m[0..2] == m[..2];
    }
    MarkerAtStart(m, 0);
    if j + 2 <= |m| {
      assert m[j..j + 2][0] == m[j];
    }
    assert m[j..j + 1][0] == m[j];
  }

  /** A marker whose name is followed by a well-formed index. */
  lemma IndexedMarkerEnd(text: string, i: nat, j: nat, index: int, end: nat)
    requires HasAt(text, i, "%{") && i + 2 < j < |text|
    requires forall k :: i + 2 <= k < j ==> NameChar(text[k])
    requires !HasAt(text, j, "}%") && HasAt(text, j, "[")
    requires IndexTail(text, j + 1) == Some((index, end))
    ensures MarkerEnd(text, i, j) == Some(ParsedElement(text[i + 2..j], Placeholder, Indexed, Some(index), text[i..end]))
  {
  }

  /** Where the parts of an indexed marker sit in its text, with `j` the position of its `[`. */
  lemma IndexedLayout(m: string, name: string, digits: string, j: nat)
    requires m == "%{" + name + "[" + digits + "]}%" && j == 2 + |name|
    ensures |m| == j + |digits| + 4
    ensures m[..2] == "%{" && m[2..j] == name && m[j] == '['
    ensures m[j + 1..j + 1 + |digits|] == digits
    ensures HasAt(m, j + 1 + |digits|, "]}%")
  {
  }

  /** A marker start followed by a name: what follows the name decides. */
  lemma MarkerAtStart(text: string, i: nat)
    requires HasAt(text, i, "%{") && NameLength(text, i + 2) > 0
    ensures MarkerAt(text, i) == MarkerEnd(text, i, i + 2 + NameLength(text, i + 2))
  {
  }

  /** IndexTail reads an optionally signed run of digits followed by `]}%`. */
  lemma IndexTailRead(text: string, k: nat, digits: string, sign: nat, index: int, end: nat)
    requires end == k + |digits| + 3 <= |text|
    requires text[k..k + |digits|] == digits && HasAt(text, k + |digits|, "]}%")
    requires sign <= 1 && |digits| > sign && AllDigits(digits[sign..])
    requires sign == 1 <==> digits[0] == '-'
    requires ParseSignedDigits(digits) == Some(index)
    ensures IndexTail(text, k) == Some((index, end))
  {
    assert text[k] == digits[0];
    assert text[k + |digits|] == ']' by {
      assert text[k + |digits|..k + |digits| + 3][0] == text[k + |digits|];
    }
    var d := |digits| - sign;
    DigitsAfterSign(text, k, digits, sign);
    assert k + sign + d == k + |digits|;
    assert text[k..k + sign + d] == digits;
    IndexTailOf(text, k, sign, d, index);
  }

  /** IndexTail once its sign, its run of digits and its closing `]}%` are known. */
  lemma IndexTailOf(text: string, k: nat, sign: nat, d: nat, index: int)
    requires k + sign + d <= |text| && sign <= 1 && d > 0
    requires k < |text| && text[k] == '-' <==> sign == 1
    requires DigitsLength(text, k + sign) == d && HasAt(text, k + sign + d, "]}%")
    requires ParseSignedDigits(text[k..k + sign + d]) == Some(index)
    ensures IndexTail(text, k) == Some((index, k + sign + d + 3))
  {
    var e := k + sign + d;
    assert (if k < |text| && text[k] == '-' then 1 else 0) == sign;
    assert d > 0 && HasAt(text, e, "]}%");
  }

  /** The digits of a signed number, written at `k` and followed by a non-digit, form one run. */
  lemma DigitsAfterSign(text: string, k: nat, digits: string, sign: nat)
    requires k + |digits| < |text| && text[k..k + |digits|] == digits && !IsDigit(text[k + |digits|])
    requires sign <= |digits| && AllDigits(digits[sign..])
    ensures DigitsLength(text, k + sign) == |digits| - sign
  {
    forall t | k + sign <= t < k + |digits|
      ensures IsDigit(text[t])
    {
      assert text[t] == digits[t - k] == digits[sign..][t - k - sign];
    }
    DigitRun(text, k + sign, |digits| - sign);
  }

  /** A text that is one marker holds exactly that element. */
  lemma MarkerIsExtracted(name: string, subType: ElementSubType, index: int)
    requires IsName(name)
    ensures var m := MarkerText(name, subType, index);
      ExtractElements(m) ==
        [ParsedElement(name, Placeholder, subType, if subType == Plain then None else Some(index), m)]
  {
    var m := MarkerText(name, subType, index);
    if subType == Plain {
      PlainMarkerAt(name);
    } else {
      IndexedMarkerAt(name, index);
    }
    WholeTextMarker(m, ParsedElement(name, Placeholder, subType, if subType == Plain then None else Some(index), m));
  }

  lemma WholeTextMarker(m: string, e: ParsedElement)
    requires m != [] && MarkerAt(m, 0) == Some(e) && e.fullElementMatch == m
    ensures ExtractElements(m) == [e]
  {
    assert ExtractFrom(m, |m|) == [];
  }

  /** A pass over one element. */
  lemma SubstituteOne(text: string, e: ParsedElement, ctx: Context)
    ensures SubstituteAll(text, [e], ctx) ==
      if e.elementType == Placeholder then ReplaceAll(text, e.fullElementMatch, ValueForPlaceholder(e, ctx)) else text
  {
    assert [e][1..] == [];
  }

  /**
   * A text that is one plain marker expands to the parameter cast to string,
   * provided that value holds no marker itself.
   */
  lemma ExpandsPlainMarker(name: string, ctx: Context, fuel: nat)
    requires IsName(name) && fuel >= 1
    requires ExtractElements(Stringify(Lookup(ctx, name))) == []
    ensures ProcessSpec(MarkerText(name, Plain, 0), ctx, fuel) == Some(Stringify(Lookup(ctx, name)))
  {
    var m := MarkerText(name, Plain, 0);
    var e := ParsedElement(name, Placeholder, Plain, None, m);
    MarkerIsExtracted(name, Plain, 0);
    ReplaceWhole(m, Stringify(Lookup(ctx, name)));
    SubstituteOne(m, e, ctx);
    assert SubstituteAll(m, [e], ctx) == Stringify(Lookup(ctx, name));
  }

  /**
   * An element that is not a placeholder is never substituted, so a scanner
   * that keeps finding it keeps the loop running: no number of passes
   * suffices.
   */
  lemma {:induction false} OtherElementNeverSettles(scan: string -> seq<ParsedElement>, text: string,
                                                     e: ParsedElement, ctx: Context, fuel: nat)
    requires e.elementType == OtherElement
    requires forall t :: scan(t) == [e]
    ensures ProcessWith(scan, text, [e], ctx, fuel) == None
    decreases fuel
  {
    if fuel > 0 {
      SubstituteSkipsOthers(text, [e], ctx);
      OtherElementNeverSettles(scan, SubstituteAll(text, [e], ctx), e, ctx, fuel - 1);
    }
  }

  /**
   * Expansion need not terminate: a parameter whose value is its own marker
   * brings the marker back on every pass, so no number of passes suffices.
   */
  lemma {:induction false} SelfReferenceNeverSettles(ctx: Context, fuel: nat)
    requires "A" in ctx && ctx["A"] == Str(MarkerText("A", Plain, 0))
    ensures ProcessSpec(MarkerText("A", Plain, 0), ctx, fuel) == None
    decreases fuel
  {
    var m := MarkerText("A", Plain, 0);
    var e := ParsedElement("A", Placeholder, Plain, None, m);
    MarkerIsExtracted("A", Plain, 0);
    ReplaceWhole(m, m);
    SubstituteOne(m, e, ctx);
    assert SubstituteAll(m, [e], ctx) == m;
    if fuel > 0 {
      SelfReferenceNeverSettles(ctx, fuel - 1);
    }
  }
}
