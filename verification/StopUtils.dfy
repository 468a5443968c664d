/** The stop table searches and the trimming of the key file, over any table and any file. */
module StopUtils {
  import opened Options
  import opened CStrings

  datatype Stop = Stop(id: CStr, name: CStr, lat: real, lon: real)

  datatype StopStatus = Found | NotFound

  // ---------------------------------------------------------------- single stops

  /** The first stop with an id. */
  function FirstById(table: seq<Stop>, id: CStr): Option<Stop> {
    if table == [] then None
    else if table[0].id == id then Some(table[0])
    else FirstById(table[1..], id)
  }

  method FindStopById(table: seq<Stop>, stopId: Option<CStr>) returns (status: StopStatus, stop: Option<Stop>)
    ensures status == Found <==> stop.Some?
    ensures stop == if stopId.None? then None else FirstById(table, stopId.value)
    ensures status == Found <==> stopId.Some? && exists i :: 0 <= i < |table| && table[i].id == stopId.value
    ensures status == Found ==> exists i :: 0 <= i < |table| && stop == Some(table[i]) && table[i].id == stopId.value
                                         && forall j | 0 <= j < i :: table[j].id != stopId.value
  {
    if stopId.None? {
      return NotFound, None;
    }
    for i := 0 to |table|
      invariant forall j | 0 <= j < i :: table[j].id != stopId.value
      invariant FirstById(table, stopId.value) == FirstById(table[i..], stopId.value)
    {
      assert table[i..][1..] == table[i + 1..];
      if table[i].id == stopId.value {
        return Found, Some(table[i]);
      }
    }
    return NotFound, None;
  }

  method FindStopByName(table: seq<Stop>, name: Option<CStr>) returns (status: StopStatus, stop: Option<Stop>)
    ensures status == Found <==> stop.Some?
    ensures status == Found <==> name.Some? && exists i :: 0 <= i < |table| && table[i].name == name.value
    ensures status == Found ==> exists i :: 0 <= i < |table| && stop == Some(table[i]) && table[i].name == name.value
                                         && forall j | 0 <= j < i :: table[j].name != name.value
  {
    if name.None? {
      return NotFound, None;
    }
    for i := 0 to |table|
      invariant forall j | 0 <= j < i :: table[j].name != name.value
    {
      if table[i].name == name.value {
        return Found, Some(table[i]);
      }
    }
    return NotFound, None;
  }

  function FindStopByIndex(table: seq<Stop>, index: nat): Option<Stop> {
    if index < |table| then Some(table[index]) else None
  }

  lemma {:induction false} FirstHasId(table: seq<Stop>, id: CStr)
    ensures match FirstById(table, id)
            case None => forall i | 0 <= i < |table| :: table[i].id != id
            case Some(stop) => stop.id == id && exists i :: 0 <= i < |table| && table[i] == stop
  {
    if table != [] {
      FirstHasId(table[1..], id);
      assert forall i | 0 < i < |table| :: table[i] == table[1..][i - 1];
      assert forall i | 0 <= i < |table| - 1 :: table[1..][i] == table[i + 1];
    }
  }

  ghost predicate IdsIdentify(table: seq<Stop>) {
    forall i, j | 0 <= i < j < |table| && table[i].id == table[j].id :: table[i] == table[j]
  }

  /** Every stop of the table is what the search for its id finds, if and only if no two different
      stops share an id. */
  lemma {:induction false} IdRoundTrip(table: seq<Stop>)
    ensures (forall p | 0 <= p < |table| :: FirstById(table, table[p].id) == Some(table[p])) <==> IdsIdentify(table)
  {
    if IdsIdentify(table) {
      forall p | 0 <= p < |table| ensures FirstById(table, table[p].id) == Some(table[p]) {
        FirstHasId(table, table[p].id);
      }
    } else {
      var i, j :| 0 <= i < j < |table| && table[i].id == table[j].id && table[i] != table[j];
      assert !(FirstById(table, table[i].id) == Some(table[i]) && FirstById(table, table[j].id) == Some(table[j]));
    }
  }

  // ---------------------------------------------------------------- substring search

  /** `strstr(hay, needle) != NULL`. */
  predicate Contains(hay: string, needle: string) {
    exists i :: 0 <= i <= |hay| && OccursAt(hay, needle, i)
  }

  predicate OccursAt(hay: string, needle: string, i: nat)
    requires i <= |hay|
  {
    needle <= hay[i..]
  }

  /** The text occurs somewhere in the name. */
  lemma ContainsExactly(hay: string, needle: string)
    ensures Contains(hay, needle) <==> exists a, b :: hay == a + needle + b
  {
    if i :| 0 <= i <= |hay| && OccursAt(hay, needle, i) {
      var a, b := hay[..i], hay[i..][|needle|..];
      assert hay[i..] == needle + b;
      assert hay == a + needle + b;
    }
    if a, b :| hay == a + needle + b {
      assert hay[|a|..] == needle + b;
      assert OccursAt(hay, needle, |a|);
    }
  }

  /** Positions of the stops whose name contains the text. */
  function Matches(table: seq<Stop>, text: string): (m: seq<nat>)
    ensures |m| <= |table|
  {
    if table == [] then [] else
    var n := |table| - 1;
    Matches(table[..n], text) + if Contains(table[n].name, text) then [n] else []
  }

  lemma {:induction false} PrefixMatchesFewer(table: seq<Stop>, text: string, i: nat)
    requires i <= |table|
    ensures |Matches(table[..i], text)| <= |Matches(table, text)|
  {
    if i < |table| {
      var n := |table| - 1;
      PrefixMatchesFewer(table[..n], text, i);
      assert table[..n][..i] == table[..i];
    } else {
      assert table[..i] == table;
    }
  }

  /** First pass. */
  method CountMatches(table: seq<Stop>, text: CStr) returns (count: nat)
    ensures count == |Matches(table, text)|
  {
    count := 0;
    for i := 0 to |table|
      invariant count == |Matches(table[..i], text)|
    {
      assert table[..i + 1][..i] == table[..i];
      if Contains(table[i].name, text) {
        count := count + 1;
      }
    }
    assert table[..|table|] == table;
  }

  /** Second pass. */
  method FillMatches(table: seq<Stop>, text: CStr, indices: array<nat>)
    requires indices.Length == |Matches(table, text)|
    modifies indices
    ensures indices[..] == Matches(table, text)
  {
    var idx := 0;
    for i := 0 to |table|
      invariant idx <= indices.Length && indices[..idx] == Matches(table[..i], text)
    {
      assert table[..i + 1][..i] == table[..i];
      PrefixMatchesFewer(table, text, i + 1);
      if Contains(table[i].name, text) {
        indices[idx] := i;
        idx := idx + 1;
      }
    }
    assert table[..|table|] == table;
  }

  /** The first pass counts, the second fills an array of exactly that size. */
  method FindStopsByNameSubstring(table: seq<Stop>, text: Option<CStr>, allocationSucceeds: bool)
    returns (status: StopStatus, indices: array?<nat>, count: nat)
    ensures status == Found <==> text.Some? && allocationSucceeds && Matches(table, text.value) != []
    ensures status == Found ==> indices != null && indices[..] == Matches(table, text.value) && count == indices.Length
    ensures status == Found ==> forall p: nat :: p in indices[..] <==>
              p < |table| && exists a, b :: table[p].name == a + text.value + b
    ensures text.Some? && allocationSucceeds && status == NotFound ==>
              forall p | 0 <= p < |table| :: !exists a, b :: table[p].name == a + text.value + b
    ensures status == NotFound ==> indices == null && count == 0
  {
    if text.None? {
      return NotFound, null, 0;
    }
    MatchingNames(table, text.value);
    count := CountMatches(table, text.value);
    if count == 0 {
      return NotFound, null, 0;
    }
    if !allocationSucceeds {
      return NotFound, null, 0;
    }
    indices := new nat[count];
    FillMatches(table, text.value, indices);
    status := Found;
  }

  lemma {:induction false} MatchesAreThePositions(table: seq<Stop>, text: string)
    ensures var m := Matches(table, text);
            && (forall i, j | 0 <= i < j < |m| :: m[i] < m[j])
            && (forall p: nat :: p in m <==> p < |table| && Contains(table[p].name, text))
  {
    if table != [] {
      var n := |table| - 1;
      MatchesAreThePositions(table[..n], text);
      var m, all := Matches(table[..n], text), Matches(table, text);
      assert forall i | 0 <= i < |m| :: m[i] in m;
      forall p: nat ensures p in all <==> p < |table| && Contains(table[p].name, text) {
        assert p in all <==> p in m || (p == n && Contains(table[n].name, text));
        if p < n { assert table[..n][p] == table[p]; }
      }
    }
  }

  /** The matches are strictly increasing, are exactly the positions whose name contains the text,
      and each is accepted by the search by index, which returns a stop with such a name. */
  lemma {:induction false} MatchesAreExact(table: seq<Stop>, text: string)
    ensures var m := Matches(table, text);
            && (forall i, j | 0 <= i < j < |m| :: m[i] < m[j])
            && (forall p: nat :: p in m <==> p < |table| && Contains(table[p].name, text))
            && (forall i | 0 <= i < |m| :: FindStopByIndex(table, m[i]).Some?
                                        && Contains(FindStopByIndex(table, m[i]).value.name, text))
  {
    MatchesAreThePositions(table, text);
    assert forall i | 0 <= i < |Matches(table, text)| :: Matches(table, text)[i] in Matches(table, text);
  }

  lemma MatchingNames(table: seq<Stop>, text: string)
    ensures forall p: nat :: p in Matches(table, text) <==>
              p < |table| && exists a, b :: table[p].name == a + text + b
  {
    MatchesAreThePositions(table, text);
    forall p | 0 <= p < |table|
      ensures Contains(table[p].name, text) <==> exists a, b :: table[p].name == a + text + b
    {
      ContainsExactly(table[p].name, text);
    }
  }

  // ---------------------------------------------------------------- the key file

  /** Where the text among the first `n` characters ends when white space after it is dropped. */
  function TextEnd(s: string, n: nat): (end: nat)
    requires n <= |s|
    ensures end <= n && (forall i | end <= i < n :: IsSpace(s[i])) && (end > 0 ==> !IsSpace(s[end - 1]))
  {
    if n == 0 || !IsSpace(s[n - 1]) then n else TextEnd(s, n - 1)
  }

  function WithoutTrailing(s: string): (r: string)
    ensures r <= s && AllSpaces(s[|r|..]) && (r != "" ==> !IsSpace(r[|r| - 1]))
  {
    s[..TextEnd(s, |s|)]
  }

  function Trim(s: string): string {
    WithoutTrailing(s[SpaceRun(s)..])
  }

  datatype KeyStatus = KeyReadOk | KeyReadError

  /** `file` is `None` when the file cannot be opened, sized or read in full. */
  method ReadApiKeyFromFile(file: Option<string>, allocationSucceeds: bool)
    returns (status: KeyStatus, key: array?<char>)
    ensures status == KeyReadOk <==> file.Some? && allocationSucceeds
    ensures status == KeyReadOk ==> key != null && key[..] == Trim(file.value) + [NUL]
  {
    if file.None? || !allocationSucceeds {
      return KeyReadError, null;
    }
    var size := |file.value|;
    var buffer := new char[size + 1](i requires 0 <= i <= size => if i < size then file.value[i] else NUL);
    assert buffer[..size] == file.value;
    var begin, end := Scan(buffer, size);
    key := CopyText(buffer, begin, end);
    return KeyReadOk, key;
  }

  /** Copies a part of the buffer and terminates it. */
  method CopyText(buffer: array<char>, begin: nat, end: nat) returns (key: array<char>)
    requires begin <= end <= buffer.Length
    ensures key[..] == buffer[begin..end] + [NUL]
  {
    var length := end - begin;
    key := new char[length + 1];
    forall i | 0 <= i < length {
      key[i] := buffer[begin + i];
    }
    key[length] := NUL;
    assert key[..length] == buffer[begin..end];
  }

  /** The two scans of the buffer; neither leaves it. */
  method Scan(buffer: array<char>, size: nat) returns (begin: nat, end: nat)
    requires size <= buffer.Length
    ensures begin <= end <= size && buffer[begin..end] == Trim(buffer[..size])
  {
    begin := ScanForward(buffer, size);
    end := ScanBackward(buffer, begin, size);
    assert buffer[..size][begin..] == buffer[begin..size];
  }

  method ScanForward(buffer: array<char>, size: nat) returns (begin: nat)
    requires size <= buffer.Length
    ensures begin == SpaceRun(buffer[..size])
  {
    ghost var s := buffer[..size];
    begin := 0;
    while begin < size && IsSpace(buffer[begin])
      invariant begin <= size && SpaceRun(s) == begin + SpaceRun(s[begin..])
    {
      assert s[begin..][1..] == s[begin + 1..];
      begin := begin + 1;
    }
  }

  method ScanBackward(buffer: array<char>, begin: nat, size: nat) returns (end: nat)
    requires begin <= size <= buffer.Length
    ensures begin <= end <= size && buffer[begin..end] == WithoutTrailing(buffer[begin..size])
  {
    ghost var s := buffer[begin..size];
    end := size;
    while end > begin && IsSpace(buffer[end - 1])
      invariant begin <= end <= size && TextEnd(s, end - begin) == TextEnd(s, |s|)
    {
      assert buffer[end - 1] == s[end - 1 - begin];
      end := end - 1;
    }
    assert end > begin ==> buffer[end - 1] == s[end - 1 - begin];
    assert buffer[begin..end] == s[..end - begin];
  }

  /** What it means that `key` is what remains of `s` between white space. */
  ghost predicate IsTrimmed(key: string) {
    key == "" || (!IsSpace(key[0]) && !IsSpace(key[|key| - 1]))
  }

  /** The key is a slice of the file between two runs of white space and touches neither. */
  lemma TrimIsMaximal(s: string)
    ensures IsTrimmed(Trim(s))
    ensures exists a, b :: s == a + Trim(s) + b && AllSpaces(a) && AllSpaces(b)
  {
    var a, b := TrimSplits(s);
    if Trim(s) != "" {
      assert Trim(s)[0] == s[|a|];
    }
  }

  lemma TrimSplits(s: string) returns (a: string, b: string)
    ensures s == a + Trim(s) + b && a == s[..SpaceRun(s)] && AllSpaces(a) && AllSpaces(b)
  {
    var rest := s[SpaceRun(s)..];
    a, b := s[..SpaceRun(s)], rest[|WithoutTrailing(rest)|..];
    PrefixAndRest(rest, WithoutTrailing(rest));
    PrefixAndRest(s, a);
    ConcatenationAssociates(a, Trim(s), b);
  }

  lemma PrefixAndRest(s: string, prefix: string)
    requires prefix <= s
    ensures s == prefix + s[|prefix|..]
  {
  }

  lemma ConcatenationAssociates(a: string, b: string, c: string)
    ensures a + b + c == a + (b + c)
  {
  }

  /** It is the only such slice. */
  lemma TrimIsUnique(s: string, a: string, key: string, b: string)
    requires s == a + key + b && AllSpaces(a) && AllSpaces(b) && IsTrimmed(key)
    ensures key == Trim(s)
  {
    if key == "" {
      assert AllSpaces(s[..|s|]) by { assert s[..|s|] == s; }
      SpaceRunEnds(s, |s|);
    } else {
      assert s[..|a|] == a && s[|a|] == key[0];
      SpaceRunEnds(s, |a|);
      assert s[|a|..] == key + b;
      TrailingSpacesGo(key, b);
    }
  }

  lemma TrailingSpacesGo(key: string, b: string)
    requires key != "" && !IsSpace(key[|key| - 1]) && AllSpaces(b)
    ensures WithoutTrailing(key + b) == key
  {
    var s := key + b;
    var end := TextEnd(s, |s|);
    assert s[|key| - 1] == key[|key| - 1];
    assert forall i | |key| <= i < |s| :: s[i] == b[i - |key|];
    assert end == |key|;
  }

  /** A key between blanks, tabs, line ends and form feeds is what is read, for one example a key that
      ends in a line feed. */
  lemma KeyIsFoundBetweenSpaces(a: string, key: string, b: string)
    requires forall c | c in a + b :: c in " \t\n\r\U{0B}\U{0C}"
    requires key != "" && key[0] !in " \t\n\r\U{0B}\U{0C}" && key[|key| - 1] !in " \t\n\r\U{0B}\U{0C}"
    ensures Trim(a + key + b) == key
    ensures Trim(key + "\n") == key
  {
    assert forall c | c in a :: c in a + b;
    assert forall c | c in b :: c in a + b;
    TrimIsUnique(a + key + b, a, key, b);
    assert key + "\n" == "" + key + "\n";
    TrimIsUnique(key + "\n", "", key, "\n");
  }

  /** Trimming again changes nothing, and the key is empty exactly for an all-blank file. */
  lemma TrimIsIdempotent(s: string)
    ensures Trim(Trim(s)) == Trim(s)
    ensures Trim(s) == "" <==> AllSpaces(s)
  {
  }
}
