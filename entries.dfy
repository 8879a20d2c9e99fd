/** The criteria prompt of the targeted search: each line the user types is
    either a `key:value` attribute or a keyword; the first blank line ends
    the input. Attribute values are converted to booleans, numbers or
    strings; a key entered twice keeps its last value. */
module Entries {
  import opened Text
  import opened Values

  /** One line of criteria input. */
  datatype Entry = Keyword(word: string) | Attribute(key: string, value: Value)

  /** The conversion of an attribute's (stripped, lowercased) value text. */
  function ConvertValue(valueText: string): (v: Value)
    ensures v.Bool? <==> valueText == "true" || valueText == "false"
    ensures v.Bool? ==> v.b == (valueText == "true")
    ensures v.Int? <==> IsDigits(valueText)
    ensures IsDigits(valueText) ==> v == Int(ParseNat(valueText))
    ensures v.Str? ==> v.s == valueText
  {
    if valueText == "true" then
      assert !IsDigit(valueText[0]);
      Bool(true)
    else if valueText == "false" then
      assert !IsDigit(valueText[0]);
      Bool(false)
    else if IsDigits(valueText) then Int(ParseNat(valueText))
    else Str(valueText)
  }

  /** The digits of a number read back as that number. */
  lemma ConvertShown(n: nat)
    ensures ConvertValue(ShowNat(n)) == Int(n)
  {
    var s := ShowNat(n);
    assert IsDigit(s[0]);
    assert "true"[0] == 't' && "false"[0] == 'f';
    ParseShowNat(n);
  }

  /** Leading zeros do not change the number a value converts to. */
  lemma ConvertLeadingZero(digits: string)
    requires IsDigits(digits)
    ensures ConvertValue("0" + digits) == ConvertValue(digits)
  {
    var t := "0" + digits;
    assert t[0] == '0' && "true"[0] == 't' && "false"[0] == 'f';
    assert IsDigits(t);
    ParseNatLeadingZero(digits);
  }

  /** How one input line is read: stripped; with a `:`, split at the first
      one into a stripped, lowercased key and value; otherwise a lowercased
      keyword. */
  function ParseEntry(line: string): Entry
  {
    var input := Strip(line);
    if ':' in input then
      var (key, valueText) := SplitFirst(input, ':');
      Attribute(Lower(Strip(key)), ConvertValue(Lower(Strip(valueText))))
    else Keyword(Lower(input))
  }

  /** No whitespace at either end, and nothing to lowercase. */
  predicate Canonical(s: string)
  {
    (s == [] || (!IsSpace(s[0]) && !IsSpace(s[|s| - 1]))) && Lower(s) == s
  }

  /** A canonical `key:value` line reads as that key with its value converted. */
  lemma ParseAttributeLine(key: string, valueText: string)
    requires ':' !in key && Canonical(key) && Canonical(valueText)
    ensures ParseEntry(key + ":" + valueText) == Attribute(key, ConvertValue(valueText))
  {
    var line := key + ":" + valueText;
    assert line == key + [':'] + valueText;
    assert line[|key|] == ':';
    assert line[0] == (if key == [] then ':' else key[0]);
    assert line[|line| - 1] == (if valueText == [] then ':' else valueText[|valueText| - 1]);
    StripTrimmed(line);
    SplitFirstUnique(key, valueText, ':');
    StripTrimmed(key);
    StripTrimmed(valueText);
  }

  /** A line without `:` is a keyword, lowercased. */
  lemma ParseKeywordLine(line: string)
    requires ':' !in line && Canonical(line)
    ensures ParseEntry(line) == Keyword(line)
  {
    StripTrimmed(line);
  }

  /** A line that is empty once stripped: the line that ends the input. */
  predicate Blank(line: string)
  {
    Strip(line) == []
  }

  /** The lines before the first one `stop` accepts. */
  function TakeUntil(lines: seq<string>, stop: string -> bool): (e: seq<string>)
    ensures |e| <= |lines|
  {
    if lines == [] || stop(lines[0]) then [] else [lines[0]] + TakeUntil(lines[1..], stop)
  }

  /** `TakeUntil` is the longest prefix with no line `stop` accepts. */
  lemma {:induction false} TakeUntilSpec(lines: seq<string>, stop: string -> bool)
    ensures var e := TakeUntil(lines, stop);
      && e == lines[..|e|]
      && (forall i :: 0 <= i < |e| ==> !stop(lines[i]))
      && (|e| == |lines| || stop(lines[|e|]))
  {
    if lines != [] && !stop(lines[0]) {
      var rest := lines[1..];
      TakeUntilSpec(rest, stop);
      assert forall i :: 0 <= i < |rest| ==> rest[i] == lines[i + 1];
    }
  }

  /** The lines read before the first blank one. */
  function Entered(lines: seq<string>): seq<string>
  {
    TakeUntil(lines, Blank)
  }

  /** `Entered` is the longest prefix without a blank line. */
  lemma EnteredSpec(lines: seq<string>)
    ensures var e := Entered(lines);
      && |e| <= |lines|
      && e == lines[..|e|]
      && (forall i :: 0 <= i < |e| ==> !Blank(lines[i]))
      && (|e| == |lines| || Blank(lines[|e|]))
  {
    TakeUntilSpec(lines, Blank);
  }

  /** Any blank-free prefix that ends at a blank line, or at the end of the
      input, is exactly what is read. */
  lemma EnteredStops(lines: seq<string>, n: nat)
    requires n <= |lines|
    requires forall i :: 0 <= i < n ==> !Blank(lines[i])
    requires n == |lines| || Blank(lines[n])
    ensures Entered(lines) == lines[..n]
  {
    EnteredSpec(lines);
    assert |Entered(lines)| == n;
  }

  /** Reading up to the `i`-th line, that line ends the input exactly when it is blank. */
  lemma EnteredAt(lines: seq<string>, i: nat)
    requires i < |lines| && i <= |Entered(lines)|
    ensures Blank(lines[i]) <==> i == |Entered(lines)|
  {
    EnteredSpec(lines);
  }

  /** The entries the lines stand for, each read by `parse`. */
  function Parsed(lines: seq<string>, parse: string -> Entry): (r: seq<Entry>)
    ensures |r| == |lines|
    ensures forall i :: 0 <= i < |lines| ==> r[i] == parse(lines[i])
  {
    seq(|lines|, i requires 0 <= i < |lines| => parse(lines[i]))
  }

  /** The attributes of `entries`, a later key replacing an earlier one. */
  function AttributesOf(entries: seq<Entry>): map<string, Value>
  {
    if entries == [] then map[]
    else
      var before := AttributesOf(entries[..|entries| - 1]);
      match entries[|entries| - 1]
      case Attribute(key, value) => before[key := value]
      case Keyword(_) => before
  }

  /** The keywords of `entries`, in the order entered. */
  function KeywordsOf(entries: seq<Entry>): seq<string>
  {
    if entries == [] then []
    else
      var before := KeywordsOf(entries[..|entries| - 1]);
      match entries[|entries| - 1]
      case Attribute(_, _) => before
      case Keyword(word) => before + [word]
  }

  predicate SetsKey(e: Entry, key: string)
  {
    e.Attribute? && e.key == key
  }

  /** A key is among the attributes exactly when some entry sets it. */
  lemma {:induction false} AttributesPresent(entries: seq<Entry>, key: string)
    ensures key in AttributesOf(entries) <==> exists i :: 0 <= i < |entries| && SetsKey(entries[i], key)
  {
    if entries != [] {
      var init := entries[..|entries| - 1];
      var last := entries[|entries| - 1];
      assert entries == init + [last];
      EntriesSnoc(init, last);
      AttributesPresent(init, key);
      assert forall i :: 0 <= i < |init| ==> init[i] == entries[i];
    }
  }

  /** A key's value is the one the last entry setting it gives. */
  lemma {:induction false} AttributesLastWins(entries: seq<Entry>, key: string)
    requires key in AttributesOf(entries)
    ensures exists i :: 0 <= i < |entries| && entries[i] == Attribute(key, AttributesOf(entries)[key])
                     && forall j :: i < j < |entries| ==> !SetsKey(entries[j], key)
  {
    var init := entries[..|entries| - 1];
    var last := entries[|entries| - 1];
    assert entries == init + [last];
    EntriesSnoc(init, last);
    if SetsKey(last, key) {
      assert entries[|entries| - 1] == Attribute(key, AttributesOf(entries)[key]);
    } else {
      AttributesLastWins(init, key);
      var i :| 0 <= i < |init| && init[i] == Attribute(key, AttributesOf(init)[key])
        && forall j :: i < j < |init| ==> !SetsKey(init[j], key);
      assert entries[i] == init[i];
      assert forall j :: i < j < |init| ==> entries[j] == init[j];
    }
  }

  /** Where the keyword entries are, in order. */
  function KeywordPositions(entries: seq<Entry>): seq<nat>
  {
    if entries == [] then []
    else
      var last := |entries| - 1;
      KeywordPositions(entries[..last]) + (if entries[last].Keyword? then [last] else [])
  }

  /** The keywords are the words of the keyword entries, in the order
      entered, one per entry: the `j`-th keyword comes from the `j`-th
      keyword entry. */
  lemma {:induction false} KeywordsInOrder(entries: seq<Entry>)
    ensures var kw := KeywordsOf(entries);
      var pos := KeywordPositions(entries);
      && |kw| == |pos|
      && (forall j :: 0 <= j < |pos| ==> pos[j] < |entries| && entries[pos[j]] == Keyword(kw[j]))
      && (forall j, k :: 0 <= j < k < |pos| ==> pos[j] < pos[k])
      && (forall i :: 0 <= i < |entries| ==> (entries[i].Keyword? <==> i in pos))
  {
    if entries != [] {
      var init := entries[..|entries| - 1];
      var last := entries[|entries| - 1];
      assert entries == init + [last];
      EntriesSnoc(init, last);
      KeywordsInOrder(init);
      assert forall i :: 0 <= i < |init| ==> init[i] == entries[i];
    }
  }

  /** Reading one more line appends its entry. */
  lemma ParsedSnoc(lines: seq<string>, i: nat, parse: string -> Entry)
    requires i < |lines|
    ensures Parsed(lines[..i + 1], parse) == Parsed(lines[..i], parse) + [parse(lines[i])]
  {
    var r := Parsed(lines[..i + 1], parse);
    assert r[..i] == Parsed(lines[..i], parse);
  }

  /** One more entry sets its key or appends its keyword. */
  lemma EntriesSnoc(entries: seq<Entry>, e: Entry)
    ensures AttributesOf(entries + [e]) == (if e.Attribute? then AttributesOf(entries)[e.key := e.value] else AttributesOf(entries))
    ensures KeywordsOf(entries + [e]) == (if e.Keyword? then KeywordsOf(entries) + [e.word] else KeywordsOf(entries))
  {
    assert (entries + [e])[..|entries|] == entries;
  }

  /** The prompt loop: reads lines until the first blank one (or the end of
      the input), collecting the attributes and keywords entered. */
  method CollectEntries(lines: seq<string>) returns (attributes: map<string, Value>, keywords: seq<string>)
    ensures attributes == AttributesOf(Parsed(Entered(lines), ParseEntry))
    ensures keywords == KeywordsOf(Parsed(Entered(lines), ParseEntry))
  {
    attributes := map[];
    keywords := [];
    var i := 0;
    while i < |lines|
      invariant i <= |lines|
      invariant i <= |Entered(lines)|
      invariant attributes == AttributesOf(Parsed(lines[..i], ParseEntry))
      invariant keywords == KeywordsOf(Parsed(lines[..i], ParseEntry))
    {
      var attrInput := Strip(lines[i]);
      EnteredAt(lines, i);
      if attrInput == [] {
        break;
      }
      ParsedSnoc(lines, i, ParseEntry);
      EntriesSnoc(Parsed(lines[..i], ParseEntry), ParseEntry(lines[i]));
      if ':' in attrInput {
        var (key, valueText) := SplitFirst(attrInput, ':');
        key := Lower(Strip(key));
        valueText := Lower(Strip(valueText));
        attributes := attributes[key := ConvertValue(valueText)];
      } else {
        keywords := keywords + [Lower(attrInput)];
      }
      i := i + 1;
    }
    EnteredSpec(lines);
  }
}
