// The list of Reality short IDs of a node's TLS settings.

module ShortIDs {
  import opened Strings

  datatype TLSSettings = TLSSettings(allowInsecure: bool, serverPort: string, serverName: string, publicKey: string,
                                     privateKey: string, shortID: string, shortIDs: seq<string>)

  // A kept entry: trimmed and not blank.
  ghost predicate IsClean(s: string) {
    s != "" && !IsSpace(s[0]) && !IsSpace(s[|s| - 1])
  }

  ghost predicate AllClean(list: seq<string>) {
    forall i :: 0 <= i < |list| ==> IsClean(list[i])
  }

  function Clean(values: seq<string>): seq<string> {
    if values == [] then [] else
    var n := |values| - 1;
    var value := TrimSpace(values[n]);
    Clean(values[..n]) + if value != "" then [value] else []
  }

  method CleanShortIDs(values: seq<string>) returns (output: seq<string>)
    ensures output == Clean(values)
  {
    hide TrimSpace;
    output := [];
    for i := 0 to |values|
      invariant output == Clean(values[..i])
    {
      var value := TrimSpace(values[i]);
      if value != "" {
        output := output + [value];
      }
      assert values[..i + 1][..i] == values[..i];
    }
    assert values[..|values|] == values;
  }

  lemma TrimmedStays(s: string)
    requires IsClean(s)
    ensures s != "" && TrimSpace(s) == s
  {
  }

  lemma {:induction false} CleanIsClean(values: seq<string>)
    ensures AllClean(Clean(values))
  {
    hide TrimSpace;
    if values != [] {
      CleanIsClean(values[..|values| - 1]);
    }
  }

  lemma {:induction false} CleanStays(list: seq<string>)
    requires AllClean(list)
    ensures Clean(list) == list
  {
    hide TrimSpace, IsClean, IsSpace;
    if list != [] {
      var n := |list| - 1;
      CleanStays(list[..n]);
      TrimmedStays(list[n]);
      assert list == list[..n] + [list[n]];
    }
  }

  // Cleaning goes entry by entry: a blank one is dropped, any other keeps its place
  // and loses its padding.
  lemma {:induction false} CleanAppend(a: seq<string>, b: seq<string>)
    ensures Clean(a + b) == Clean(a) + Clean(b)
    decreases b
  {
    hide TrimSpace;
    if b == [] {
      assert a + b == a;
    } else {
      var n := |b| - 1;
      assert (a + b)[..|a + b| - 1] == a + b[..n];
      CleanAppend(a, b[..n]);
    }
  }

  lemma CleanOne(left: string, id: string, right: string)
    requires Blank(left) && Blank(right) && (id == "" || IsClean(id))
    ensures Clean([left + id + right]) == if id == "" then [] else [id]
  {
    hide TrimSpace;
    TrimPadded(left, id, right);
    assert [left + id + right][..0] == [];
  }

  // strings.Split at commas: one more piece than there are commas.
  function Split(s: string): (pieces: seq<string>)
    ensures |pieces| > 0
  {
    if s == "" then [""]
    else if s[0] == ',' then [""] + Split(s[1..])
    else var rest := Split(s[1..]); [[s[0]] + rest[0]] + rest[1..]
  }

  function Join(list: seq<string>): string {
    if list == [] then "" else if |list| == 1 then list[0] else list[0] + "," + Join(list[1..])
  }

  function SplitShortIDs(value: string): seq<string> {
    if ',' in value then Clean(Split(value)) else Clean([value])
  }

  lemma {:induction false} SplitWithout(s: string)
    requires ',' !in s
    ensures Split(s) == [s]
  {
    if s != "" {
      SplitWithout(s[1..]);
      assert s == [s[0]] + s[1..];
    }
  }

  lemma {:induction false} SplitAtComma(a: string, b: string)
    requires ',' !in a
    ensures Split(a + "," + b) == [a] + Split(b)
  {
    var s := a + "," + b;
    if a == "" {
      assert s == "," + b && s[1..] == b;
    } else {
      assert s[1..] == a[1..] + "," + b;
      SplitAtComma(a[1..], b);
      assert a == [a[0]] + a[1..];
    }
  }

  lemma {:induction false} SplitOfJoin(list: seq<string>)
    requires list != [] && forall i :: 0 <= i < |list| ==> ',' !in list[i]
    ensures Split(Join(list)) == list
  {
    if |list| == 1 {
      SplitWithout(list[0]);
    } else {
      SplitAtComma(list[0], Join(list[1..]));
      SplitOfJoin(list[1..]);
      assert list == [list[0]] + list[1..];
    }
  }

  // A text of pieces between commas is read piece by piece.
  lemma SplitShortIDsExact(pieces: seq<string>)
    requires pieces != [] && forall i :: 0 <= i < |pieces| ==> ',' !in pieces[i]
    ensures SplitShortIDs(Join(pieces)) == Clean(pieces)
  {
    hide Clean;
    SplitOfJoin(pieces);
    if ',' !in Join(pieces) {
      SplitWithout(Join(pieces));
    }
  }

  // A single short ID is taken without its padding.
  lemma SingleShortID(t: TLSSettings, left: string, id: string, right: string)
    requires t.shortIDs == [] && t.shortID == left + id + right && Blank(left) && Blank(right)
    requires id == "" || IsClean(id)
    ensures ShortIDList(t) == if id == "" then [] else [id]
  {
    hide TrimSpace;
    TrimPadded(left, id, right);
  }

  // A comma-joined list of short IDs is read back as that list.
  lemma SplitShortIDsRoundTrip(list: seq<string>)
    requires list != [] && AllClean(list) && forall i :: 0 <= i < |list| ==> ',' !in list[i]
    ensures SplitShortIDs(Join(list)) == list
  {
    hide Clean;
    SplitShortIDsExact(list);
    CleanStays(list);
  }

  function ShortIDList(t: TLSSettings): seq<string> {
    if |t.shortIDs| > 0 then t.shortIDs
    else if TrimSpace(t.shortID) == "" then []
    else [TrimSpace(t.shortID)]
  }

  // The short IDs as decoded from a text field: the list, and its head as the
  // single short ID.
  function WithShortIDs(t: TLSSettings, value: string): TLSSettings {
    var list := SplitShortIDs(value);
    t.(shortIDs := list, shortID := if |list| > 0 then list[0] else t.shortID)
  }

  lemma NothingTrims()
    ensures TrimSpace("") == ""
  {
  }

  // Whatever text the panel sends, the list holds trimmed, non-blank entries only,
  // and is what the text says when it says anything.
  lemma DecodedListIsClean(t: TLSSettings, value: string)
    ensures AllClean(WithShortIDs(t, value).shortIDs)
    ensures AllClean(ShortIDList(WithShortIDs(t, value)))
    ensures SplitShortIDs(value) != [] || t.shortID == "" ==>
        ShortIDList(WithShortIDs(t, value)) == SplitShortIDs(value)
    ensures SplitShortIDs(value) != [] ==> WithShortIDs(t, value).shortID == SplitShortIDs(value)[0]
  {
    hide Clean, TrimSpace;
    NothingTrims();
    CleanIsClean(Split(value));
    CleanIsClean([value]);
  }
}
