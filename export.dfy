/** The spreadsheet export: the header row is the five product fields
    followed by every attribute name found, sorted; each product becomes a
    row with one cell per header. The spreadsheet service is not modelled:
    the export returns the rows it would write, or nothing for no data. */
module Export {
  import opened Text
  import opened Values
  import opened Extractor
  import opened ProductFilter

  /** The headers of the product fields, in column order. */
  const BaseHeaders: seq<string> := ["name", "price", "url", "source", "image"]

  /** What the export writes: the header row, then one row per product. */
  datatype Sheet = Sheet(headers: seq<string>, rows: seq<seq<string>>)

  /** `str()` of an integer. */
  function ShowInt(i: int): (r: string)
    ensures r != []
  {
    if i < 0 then "-" + ShowNat(-i) else ShowNat(i)
  }

  /** `str()` of a price or attribute value. */
  function Show(v: Value): string
  {
    match v
    case Bool(b) => if b then "True" else "False"
    case Int(i) => ShowInt(i)
    case Str(s) => s
  }

  /** `str()` of a field copied from the hit, which may be `None`. */
  function ShowField(o: Option<string>): string
  {
    match o
    case None => "None"
    case Some(s) => s
  }

  /** The cell of a product field under one of the base headers. */
  function BaseCell(p: Product, header: string): string
    requires header in BaseHeaders
  {
    if header == "name" then ShowField(p.name)
    else if header == "price" then Show(p.price)
    else if header == "url" then ShowField(p.url)
    else if header == "source" then ShowField(p.source)
    else ShowField(p.image)
  }

  /** A product's cell under `header`: its field for a base header, else
      its attribute of that name, else empty. */
  function Cell(p: Product, header: string): string
  {
    if header in BaseHeaders then BaseCell(p, header)
    else match Lookup(p.attributes, header)
      case Some(v) => Show(v)
      case None => ""
  }

  /** No attribute is named like a product field, nor `attributes`, so an
      attribute's column always shows the attribute. */
  lemma AttributeNamesAreNotFields(k: Key)
    ensures KeyName(k) !in BaseHeaders && KeyName(k) != "attributes"
  {
  }

  /** An attribute's cell shows the product's value of it, or nothing. */
  lemma AttributeCell(p: Product, k: Key)
    ensures Cell(p, KeyName(k)) == (if k in p.attributes then Show(p.attributes[k]) else "")
  {
    AttributeNamesAreNotFields(k);
    KeyNameParses(k);
  }

  /** The names of the attributes of one product. */
  function NamesOf(p: Product): set<string>
  {
    set k | k in p.attributes :: KeyName(k)
  }

  /** Every attribute name found in `data`. */
  function AttributeNames(data: seq<Product>): set<string>
  {
    if data == [] then {} else AttributeNames(data[..|data| - 1]) + NamesOf(data[|data| - 1])
  }

  /** A name is found exactly when some product has an attribute of that name. */
  lemma {:induction false} AttributeNamesSpec(data: seq<Product>, name: string)
    ensures name in AttributeNames(data) <==> exists i, k :: 0 <= i < |data| && k in data[i].attributes && KeyName(k) == name
  {
    if data != [] {
      var init := data[..|data| - 1];
      AttributeNamesSpec(init, name);
      assert forall i :: 0 <= i < |init| ==> init[i] == data[i];
      if name in NamesOf(data[|data| - 1]) {
        var k :| k in data[|data| - 1].attributes && KeyName(k) == name;
      }
    }
  }

  /** Increasing in Python's string order, hence without repeats. */
  predicate StrictlySorted(s: seq<string>)
  {
    forall i, j :: 0 <= i < j < |s| ==> Less(s[i], s[j])
  }

  /** Puts `x` in its place in a sorted list. */
  function InsertSorted(s: seq<string>, x: string): seq<string>
  {
    if s == [] then [x]
    else if Less(x, s[0]) then [x] + s
    else [s[0]] + InsertSorted(s[1..], x)
  }

  lemma {:induction false} InsertSortedSpec(s: seq<string>, x: string)
    requires StrictlySorted(s) && x !in s
    ensures StrictlySorted(InsertSorted(s, x))
    ensures forall y :: y in InsertSorted(s, x) <==> y in s || y == x
    ensures |InsertSorted(s, x)| == |s| + 1
  {
    if s == [] {
    } else if Less(x, s[0]) {
      forall j | 0 < j < |s|
        ensures Less(x, s[j])
      {
        LessTransitive(x, s[0], s[j]);
      }
    } else {
      LessTotal(x, s[0]);
      var rest := s[1..];
      assert forall i :: 0 <= i < |rest| ==> rest[i] == s[i + 1];
      InsertSortedSpec(rest, x);
      var r := InsertSorted(rest, x);
      forall j | 0 <= j < |r|
        ensures Less(s[0], r[j])
      {
        assert r[j] in rest || r[j] == x;
      }
    }
  }

  /** Python's `<` on strings is asymmetric. */
  lemma {:induction false} LessAsymmetric(a: string, b: string)
    ensures Less(a, b) ==> !Less(b, a)
    decreases |a|
  {
    if a != [] && b != [] && a[0] == b[0] {
      LessAsymmetric(a[1..], b[1..]);
    }
  }

  /** The first element of a sorted list is its least. */
  lemma SortedLeast(s: seq<string>, y: string)
    requires StrictlySorted(s) && y in s
    ensures y == s[0] || Less(s[0], y)
  {
    var i :| 0 <= i < |s| && s[i] == y;
  }

  /** Two sorted lists with the same elements are the same list: the header
      row is determined by the names found. */
  lemma {:induction false} SortedUnique(a: seq<string>, b: seq<string>)
    requires StrictlySorted(a) && StrictlySorted(b)
    requires forall y :: y in a <==> y in b
    ensures a == b
    decreases |a|
  {
    if a != [] {
      assert a[0] in b;
    }
    if b != [] {
      assert b[0] in a;
    }
    if a != [] && b != [] {
      SortedLeast(a, b[0]);
      SortedLeast(b, a[0]);
      LessAsymmetric(a[0], b[0]);
      assert a[0] == b[0];
      LessIrreflexive(a[0]);
      forall y
        ensures y in a[1..] <==> y in b[1..]
      {
        if y in a[1..] {
          var i :| 1 <= i < |a| && a[i] == y;
          assert Less(a[0], y);
          assert y in b && y != b[0];
        }
        if y in b[1..] {
          var i :| 1 <= i < |b| && b[i] == y;
          assert Less(b[0], y);
          assert y in a && y != a[0];
        }
      }
      SortedUnique(a[1..], b[1..]);
      assert a == [a[0]] + a[1..] && b == [b[0]] + b[1..];
    }
  }

  /** `sorted(list(names))`. */
  method SortNames(names: set<string>) returns (sorted: seq<string>)
    ensures StrictlySorted(sorted)
    ensures forall y :: y in sorted <==> y in names
  {
    sorted := [];
    var remaining := names;
    while remaining != {}
      invariant remaining <= names
      invariant StrictlySorted(sorted)
      invariant forall y :: y in sorted <==> y in names && y !in remaining
      decreases |remaining|
    {
      var x :| x in remaining;
      InsertSortedSpec(sorted, x);
      sorted := InsertSorted(sorted, x);
      remaining := remaining - {x};
    }
  }

  /** One product's row: a cell per header. */
  method BuildRow(p: Product, headers: seq<string>) returns (row: seq<string>)
    ensures |row| == |headers|
    ensures forall c :: 0 <= c < |headers| ==> row[c] == Cell(p, headers[c])
  {
    row := [];
    for c := 0 to |headers|
      invariant |row| == c
      invariant forall c' :: 0 <= c' < c ==> row[c'] == Cell(p, headers[c'])
    {
      var header := headers[c];
      if header in BaseHeaders {
        row := row + [BaseCell(p, header)];
      } else {
        var found := Lookup(p.attributes, header);
        if found.Some? {
          row := row + [Show(found.value)];
        } else {
          row := row + [""];
        }
      }
    }
  }

  /** The union of the attribute names of every product. */
  method CollectNames(data: seq<Product>) returns (allAttributeKeys: set<string>)
    ensures allAttributeKeys == AttributeNames(data)
  {
    allAttributeKeys := {};
    for i := 0 to |data|
      invariant allAttributeKeys == AttributeNames(data[..i])
    {
      assert data[..i + 1][..i] == data[..i];
      allAttributeKeys := allAttributeKeys + NamesOf(data[i]);
    }
    assert data[..|data|] == data;
  }

  /** A row per product, in order. */
  method BuildRows(data: seq<Product>, headers: seq<string>) returns (rows: seq<seq<string>>)
    ensures |rows| == |data|
    ensures forall r :: 0 <= r < |rows| ==> |rows[r]| == |headers|
    ensures forall r, c :: 0 <= r < |rows| && 0 <= c < |headers| ==> rows[r][c] == Cell(data[r], headers[c])
  {
    rows := [];
    for r := 0 to |data|
      invariant |rows| == r
      invariant forall r' :: 0 <= r' < r ==> |rows[r']| == |headers|
      invariant forall r', c :: 0 <= r' < r && 0 <= c < |headers| ==> rows[r'][c] == Cell(data[r'], headers[c])
    {
      var rowValues := BuildRow(data[r], headers);
      rows := rows + [rowValues];
    }
  }

  /** The export: nothing for no data; otherwise the headers, the five
      fields then the sorted attribute names found, and a full row per
      product. */
  method BuildSheet(data: seq<Product>) returns (sheet: Option<Sheet>)
    ensures sheet.None? <==> data == []
    ensures sheet.Some? ==>
      var headers := sheet.value.headers;
      && |headers| >= |BaseHeaders|
      && headers[..|BaseHeaders|] == BaseHeaders
      && StrictlySorted(headers[|BaseHeaders|..])
      && (forall y :: y in headers[|BaseHeaders|..] <==> y in AttributeNames(data))
    ensures sheet.Some? ==>
      var rows := sheet.value.rows;
      && |rows| == |data|
      && (forall r :: 0 <= r < |rows| ==> |rows[r]| == |sheet.value.headers|)
      && (forall r, c :: 0 <= r < |rows| && 0 <= c < |sheet.value.headers| ==>
            rows[r][c] == Cell(data[r], sheet.value.headers[c]))
  {
    if data == [] {
      return None;
    }
    var allAttributeKeys := CollectNames(data);
    var sortedNames := SortNames(allAttributeKeys);
    var finalHeaders := BaseHeaders + sortedNames;
    assert finalHeaders[|BaseHeaders|..] == sortedNames;
    var rows := BuildRows(data, finalHeaders);
    return Some(Sheet(finalHeaders, rows));
  }
}
