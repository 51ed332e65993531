/** Printing and parsing the spokes table are inverse, and every parsed table can be printed. */
module SpokesProofs {
  import opened Text
  import opened SpokesTable

  /** None of the pieces contains the character. */
  predicate Avoid(parts: seq<string>, c: char) {
    forall i :: 0 <= i < |parts| ==> c !in parts[i]
  }

  lemma {:induction false} JoinAvoids(parts: seq<string>, sep: char, c: char)
    requires parts != [] && c != sep && Avoid(parts, c)
    ensures c !in Join(parts, sep)
  {
    assert c !in parts[0];
    if |parts| > 1 {
      JoinAvoids(parts[1..], sep, c);
    }
  }

  lemma DecimalAvoids(n: nat, c: char)
    requires !IsDigit(c)
    ensures c !in Decimal(n)
  {
  }

  lemma SpaceIsNoDigit(c: char)
    requires IsDigit(c)
    ensures !IsSpace(c)
  {
  }

  // ---- one binding ----

  lemma PortRoundTrip(p: Port)
    ensures ParsePort(Decimal(p)) == Ok(p)
  {
    ValueOfDecimal(p);
    assert IsDigit(Decimal(p)[0]);
  }

  lemma BindingText(b: Binding)
    requires GoodTarget(b.target)
    ensures var s := PrintBinding(b); s != [] && Trim(s) == s && ';' !in s && ':' !in s && ',' !in s
  {
    var s, d := PrintBinding(b), Decimal(b.port);
    assert s[0] == d[0] && s[|s| - 1] == b.target[|b.target| - 1];
    SpaceIsNoDigit(d[0]);
    TrimFixed(s);
    DecimalAvoids(b.port, ';');
    DecimalAvoids(b.port, ':');
    DecimalAvoids(b.port, ',');
  }

  lemma BindingRoundTrip(b: Binding)
    requires GoodTarget(b.target)
    ensures ParseBinding(PrintBinding(b)) == Ok(b)
  {
    var s, d := PrintBinding(b), Decimal(b.port);
    DecimalAvoids(b.port, '@');
    assert s[..|d|] == d && s[|d| + 1..] == b.target;
    IndexOfIs(s, '@', |d|);
    TrimFixed(b.target);
    PortRoundTrip(b.port);
  }

  lemma {:induction false} BindingsText(bs: seq<Binding>)
    requires GoodTargets(bs)
    ensures Avoid(PrintBindings(bs), ';') && Avoid(PrintBindings(bs), ':') && Avoid(PrintBindings(bs), ',')
  {
    if bs != [] {
      BindingsText(bs[..|bs| - 1]);
      BindingText(bs[|bs| - 1]);
    }
  }

  lemma OneMoreBinding(front: seq<Binding>, b: Binding)
    requires GoodTarget(b.target) && ParseBindings(PrintBindings(front)) == Ok(front)
    ensures ParseBindings(PrintBindings(front) + [PrintBinding(b)]) == Ok(front + [b])
  {
    var pieces := PrintBindings(front) + [PrintBinding(b)];
    BindingText(b);
    BindingRoundTrip(b);
    assert pieces[..|pieces| - 1] == PrintBindings(front);
  }

  lemma GoodFront(bs: seq<Binding>)
    requires GoodTargets(bs) && bs != []
    ensures GoodTargets(bs[..|bs| - 1]) && GoodTarget(bs[|bs| - 1].target)
    ensures bs[..|bs| - 1] + [bs[|bs| - 1]] == bs
  {
  }

  lemma {:induction false} BindingsRoundTrip(bs: seq<Binding>)
    requires GoodTargets(bs)
    ensures ParseBindings(PrintBindings(bs)) == Ok(bs)
  {
    if bs != [] {
      var front, b := bs[..|bs| - 1], bs[|bs| - 1];
      GoodFront(bs);
      BindingsRoundTrip(front);
      OneMoreBinding(front, b);
    }
  }

  // ---- one entry ----

  function PortSpec(bs: seq<Binding>): string {
    if bs == [] then "" else Join(PrintBindings(bs), ';')
  }

  lemma PortSpecRoundTrip(bs: seq<Binding>)
    requires GoodTargets(bs)
    ensures ParseBindings(Split(PortSpec(bs), ';')) == Ok(bs)
    ensures ':' !in PortSpec(bs) && ',' !in PortSpec(bs)
  {
    if bs == [] {
      assert [""][..0] == [];
      assert Split("", ';') == [""];
      assert Trim("") == "";
    } else {
      BindingsRoundTrip(bs);
      BindingsText(bs);
      SplitJoin(PrintBindings(bs), ';');
      JoinAvoids(PrintBindings(bs), ';', ':');
      JoinAvoids(PrintBindings(bs), ';', ',');
    }
  }

  lemma CutAt(s: string, front: string, c: char, back: string)
    requires s == front + [c] + back && c !in front
    ensures IndexOf(s, c) == |front| < |s| && s[..|front|] == front && s[|front| + 1..] == back
  {
    assert s[..|front|] == front;
    IndexOfIs(s, c, |front|);
  }

  lemma PrintedEntry(sc: SpokeConfig)
    ensures PrintEntry(sc) == sc.id + ":" + (PortSpec(sc.ports) + ":" + sc.token)
  {
    var head, spec, tail := sc.id + ":", PortSpec(sc.ports), ":" + sc.token;
    assert PrintEntry(sc) == head + spec + tail;
    assert spec + ":" + sc.token == spec + tail;
    assert head + spec + tail == head + (spec + tail);
  }

  lemma EntryRoundTrip(sc: SpokeConfig)
    requires Printable(sc)
    ensures ParseEntry(PrintEntry(sc)) == Ok(sc)
  {
    var spec := PortSpec(sc.ports);
    var rest := spec + ":" + sc.token;
    PortSpecRoundTrip(sc.ports);
    PrintedEntry(sc);
    CutAt(PrintEntry(sc), sc.id, ':', rest);
    CutAt(rest, spec, ':', sc.token);
  }

  lemma EntryText(sc: SpokeConfig)
    requires Printable(sc)
    ensures var s := PrintEntry(sc); s != [] && Trimmed(s) && ',' !in s
  {
    var s, spec := PrintEntry(sc), PortSpec(sc.ports);
    PortSpecRoundTrip(sc.ports);
    assert s == sc.id + ":" + spec + ":" + sc.token;
    assert s[0] == if sc.id == [] then ':' else sc.id[0];
    assert s[|s| - 1] == if sc.token == [] then ':' else sc.token[|sc.token| - 1];
  }

  // ---- the table ----

  predicate EntryLike(p: string) {
    p != [] && Trimmed(p) && ',' !in p
  }

  lemma {:induction false} EntriesText(table: seq<SpokeConfig>)
    requires forall i :: 0 <= i < |table| ==> Printable(table[i])
    ensures forall k :: 0 <= k < |table| ==> EntryLike(PrintEntries(table)[k])
  {
    if table != [] {
      EntriesText(table[..|table| - 1]);
      EntryText(table[|table| - 1]);
    }
  }

  lemma {:induction false} EntriesRoundTrip(table: seq<SpokeConfig>)
    requires forall i :: 0 <= i < |table| ==> Printable(table[i])
    ensures ParseEntries(PrintEntries(table)) == Ok(TableOf(table))
  {
    if table != [] {
      var front, sc, pieces := table[..|table| - 1], table[|table| - 1], PrintEntries(table);
      EntriesRoundTrip(front);
      EntryText(sc);
      TrimFixed(PrintEntry(sc));
      EntryRoundTrip(sc);
      assert pieces[..|pieces| - 1] == PrintEntries(front) && pieces[|pieces| - 1] == PrintEntry(sc);
    }
  }

  lemma {:induction false} JoinEnds(parts: seq<string>, sep: char)
    requires parts != [] && forall k :: 0 <= k < |parts| ==> EntryLike(parts[k])
    ensures Join(parts, sep) != [] && Trimmed(Join(parts, sep))
  {
    assert EntryLike(parts[0]);
    if |parts| > 1 {
      JoinEnds(parts[1..], sep);
      var s := Join(parts, sep);
      assert s[0] == parts[0][0];
      assert s[|s| - 1] == Join(parts[1..], sep)[|Join(parts[1..], sep)| - 1];
    }
  }

  /** Parsing what was printed gives the table back, the last duplicate id winning. */
  lemma TableRoundTrip(table: seq<SpokeConfig>)
    requires table != [] && forall i :: 0 <= i < |table| ==> Printable(table[i])
    ensures ParseTable(PrintTable(table)) == Ok(TableOf(table))
  {
    EntriesText(table);
    EntriesRoundTrip(table);
    JoinEnds(PrintEntries(table), ',');
    TrimFixed(PrintTable(table));
    SplitJoin(PrintEntries(table), ',');
  }

  lemma {:induction false} LastEntryWins(table: seq<SpokeConfig>, i: nat)
    requires i < |table| && forall j :: i < j < |table| ==> table[j].id != table[i].id
    ensures table[i].id in TableOf(table) && TableOf(table)[table[i].id] == table[i]
  {
    if i < |table| - 1 {
      assert table[|table| - 1].id != table[i].id;
      LastEntryWins(table[..|table| - 1], i);
    }
  }

  // ---- whatever parses can be printed ----

  lemma TrimAvoids(s: string, c: char)
    requires c !in s
    ensures c !in Trim(s)
  {
    var i, j := TrimSlice(s);
    assert forall k :: 0 <= k < |Trim(s)| ==> Trim(s)[k] == s[i + k];
  }

  predicate NoMarks(s: string) {
    ';' !in s && ':' !in s && ',' !in s
  }

  lemma TrimNoMarks(s: string)
    requires NoMarks(s)
    ensures NoMarks(Trim(s)) && Trimmed(Trim(s))
  {
    TrimAvoids(s, ';');
    TrimAvoids(s, ':');
    TrimAvoids(s, ',');
    var i, j := TrimSlice(s);
  }

  lemma TargetIsGood(pb: string)
    requires ParseBinding(pb).Ok? && NoMarks(pb)
    ensures GoodTarget(ParseBinding(pb).value.target)
  {
    var at := IndexOf(pb, '@');
    if at < |pb| {
      TrimNoMarks(pb[at + 1..]);
    }
  }

  lemma {:induction false} TargetsAreGood(pieces: seq<string>)
    requires ParseBindings(pieces).Ok? && forall k :: 0 <= k < |pieces| ==> NoMarks(pieces[k])
    ensures GoodTargets(ParseBindings(pieces).value)
  {
    if pieces != [] {
      var last := pieces[|pieces| - 1];
      TargetsAreGood(pieces[..|pieces| - 1]);
      TrimNoMarks(last);
      if Trim(last) != [] {
        TargetIsGood(Trim(last));
      }
    }
  }

  lemma SpecTargetsAreGood(spec: string)
    requires ':' !in spec && ',' !in spec && ParseBindings(Split(spec, ';')).Ok?
    ensures GoodTargets(ParseBindings(Split(spec, ';')).value)
  {
    var pieces := Split(spec, ';');
    forall k | 0 <= k < |pieces| ensures NoMarks(pieces[k]) {
      PieceAvoidsSeparator(spec, ';', k);
      PieceAvoids(spec, ';', k, ':');
      PieceAvoids(spec, ';', k, ',');
    }
    TargetsAreGood(pieces);
  }

  /** Where a parsed entry is cut. */
  lemma EntryCuts(entry: string) returns (i: nat, j: nat)
    requires ParseEntry(entry).Ok?
    ensures i < |entry| && entry[i] == ':' && ':' !in entry[..i]
    ensures j < |entry[i + 1..]| && entry[i + 1..][j] == ':' && ':' !in entry[i + 1..][..j]
    ensures var sc := ParseEntry(entry).value;
      && sc.id == entry[..i] && sc.token == entry[i + 1..][j + 1..]
      && ParseBindings(Split(entry[i + 1..][..j], ';')) == Ok(sc.ports)
      && sc.kind == KindOf(sc.id) && (sc.kind.Cluster? ==> sc.ports != [])
  {
    i := IndexOf(entry, ':');
    j := IndexOf(entry[i + 1..], ':');
  }

  /** What a parsed entry is made of. */
  lemma EntryParts(entry: string) returns (spec: string)
    requires ParseEntry(entry).Ok?
    ensures var sc := ParseEntry(entry).value;
      && entry == sc.id + ":" + spec + ":" + sc.token
      && ':' !in sc.id && ':' !in spec
      && ParseBindings(Split(spec, ';')) == Ok(sc.ports)
      && sc.kind == KindOf(sc.id) && (sc.kind.Cluster? ==> sc.ports != [])
  {
    var i, j := EntryCuts(entry);
    spec := entry[i + 1..][..j];
    Rejoin(entry, i, j);
  }

  lemma Rejoin(entry: string, i: nat, j: nat)
    requires i < |entry| && entry[i] == ':' && j < |entry[i + 1..]| && entry[i + 1..][j] == ':'
    ensures entry == entry[..i] + ":" + entry[i + 1..][..j] + ":" + entry[i + 1..][j + 1..]
  {
  }

  lemma PartAvoids(front: string, part: string, back: string, c: char)
    requires c !in front + part + back
    ensures c !in part
  {
    assert forall k :: 0 <= k < |part| ==> part[k] == (front + part + back)[|front| + k];
  }

  lemma EntryIsPrintable(entry: string)
    requires Trimmed(entry) && ',' !in entry && ParseEntry(entry).Ok?
    ensures Printable(ParseEntry(entry).value)
  {
    var spec := EntryParts(entry);
    var sc := ParseEntry(entry).value;
    PartAvoids([], sc.id, ":" + spec + ":" + sc.token, ',');
    PartAvoids(sc.id + ":", spec, ":" + sc.token, ',');
    PartAvoids(sc.id + ":" + spec + ":", sc.token, [], ',');
    SpecTargetsAreGood(spec);
    EntryEnds(sc, entry, spec);
  }

  lemma EntryEnds(sc: SpokeConfig, entry: string, spec: string)
    requires entry == sc.id + ":" + spec + ":" + sc.token && Trimmed(entry)
    ensures sc.id != [] ==> !IsSpace(sc.id[0])
    ensures sc.token != [] ==> !IsSpace(sc.token[|sc.token| - 1])
  {
    assert sc.id != [] ==> sc.id[0] == entry[0];
    assert sc.token != [] ==> sc.token[|sc.token| - 1] == entry[|entry| - 1];
  }

  lemma {:induction false} EntriesArePrintable(pieces: seq<string>)
    requires ParseEntries(pieces).Ok? && forall k :: 0 <= k < |pieces| ==> ',' !in pieces[k]
    ensures var t := ParseEntries(pieces).value; forall id :: id in t ==> t[id].id == id && Printable(t[id])
  {
    if pieces != [] {
      var last := pieces[|pieces| - 1];
      EntriesArePrintable(pieces[..|pieces| - 1]);
      TrimAvoids(last, ',');
      var i, j := TrimSlice(last);
      if Trim(last) != [] {
        EntryIsPrintable(Trim(last));
      }
    }
  }

  /** `table` lists exactly the spokes of `t`. */
  predicate Lists(table: seq<SpokeConfig>, t: Table) {
    && TableOf(table) == t
    && forall i :: 0 <= i < |table| ==> table[i].id in t && t[table[i].id] == table[i]
  }

  /** Every parsed table holds each spoke under its own id, gives every cluster spoke a port,
      and survives printing and parsing in whatever order its spokes are listed. */
  lemma ParsedIsCanonical(raw: string, table: seq<SpokeConfig>)
    requires ParseTable(raw).Ok?
    requires table != [] && Lists(table, ParseTable(raw).value)
    ensures var t := ParseTable(raw).value;
      && (forall id :: id in t ==> t[id].id == id && t[id].kind == KindOf(id))
      && (forall id :: id in t && t[id].kind.Cluster? ==> t[id].ports != [])
      && ParseTable(PrintTable(table)) == Ok(t)
  {
    var pieces := Split(Trim(raw), ',');
    forall k | 0 <= k < |pieces| ensures ',' !in pieces[k] {
      PieceAvoidsSeparator(Trim(raw), ',', k);
    }
    EntriesArePrintable(pieces);
    TableRoundTrip(table);
  }
}
