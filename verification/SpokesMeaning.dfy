/** What the texts of a spokes table mean, piece by piece, and exactly which ones are refused. */
module SpokesMeaning {
  import opened Text
  import opened SpokesTable
  import opened SpokesProofs

  // ---- ports ----

  /** A port is the decimal text of its number, with or without a plus sign; a number of 65536 or
      more, a text with another character, and no digits at all are refused. */
  lemma PortMeans(n: nat, s: string)
    ensures ParsePort(Decimal(n)) == (if n < 65536 then Ok(n) else Err(BadPort))
    ensures ParsePort("+" + Decimal(n)) == ParsePort(Decimal(n))
    ensures (exists k :: 1 <= k < |s| && !('0' <= s[k] <= '9')) ==> ParsePort(s) == Err(BadPort)
    ensures s == "" || s == "+" || (s[0] != '+' && !('0' <= s[0] <= '9')) ==> ParsePort(s) == Err(BadPort)
  {
    ValueOfDecimal(n);
    assert Decimal(n)[0] != '+' && IsDigit(Decimal(n)[0]);
    assert ("+" + Decimal(n))[1..] == Decimal(n);
    if k :| 1 <= k < |s| && !('0' <= s[k] <= '9') {
      assert s[1..][k - 1] == s[k];
    }
  }

  // ---- bindings ----

  /** Without an '@' a port is bound to the target "default"; with one, to what follows it, which
      must not be blank. */
  lemma BindingMeans(port: string, target: string)
    requires '@' !in port
    ensures ParseBinding(port) == match ParsePort(port)
                                  case Ok(p) => Ok(Binding(p, "default"))
                                  case Err(e) => Err(e)
    ensures ParseBinding(port + "@" + target)
         == if Trim(target) == "" then Err(EmptyTarget)
            else match ParsePort(port)
                 case Ok(p) => Ok(Binding(p, Trim(target)))
                 case Err(e) => Err(e)
  {
    assert port[..|port|] == port;
    assert forall k :: 0 <= k < |port| ==> port[k] in port;
    CutAt(port + "@" + target, port, '@', target);
  }

  /** One more piece of the port list: a blank one is skipped, any other is a binding with its
      surrounding white space taken off. */
  lemma PieceMeans(pieces: seq<string>, piece: string, bs: seq<Binding>)
    requires ParseBindings(pieces) == Ok(bs)
    ensures ParseBindings(pieces + [piece])
         == if AllSpace(piece) then Ok(bs)
            else match ParseBinding(Trim(piece))
                 case Ok(b) => Ok(bs + [b])
                 case Err(e) => Err(e)
  {
    assert (pieces + [piece])[..|pieces|] == pieces;
    TrimEmptyIff(piece);
  }

  lemma {:induction false} BindingErrors(pieces: seq<string>)
    ensures var r := ParseBindings(pieces); r.Err? ==> r.error == EmptyTarget || r.error == BadPort
  {
    if pieces != [] {
      BindingErrors(pieces[..|pieces| - 1]);
    }
  }

  // ---- entries ----

  /** The entry falls into three parts. */
  predicate HasTwoColons(entry: string) {
    exists i, j :: 0 <= i < j < |entry| && entry[i] == ':' && entry[j] == ':'
  }

  lemma NoColonBefore(s: string, i: nat)
    requires i <= |s| && ':' !in s[..i]
    ensures forall k :: 0 <= k < i ==> s[k] != ':'
  {
    forall k | 0 <= k < i ensures s[k] != ':' {
      assert s[k] in s[..i];
    }
  }

  /** An entry is malformed if and only if it has fewer than two ':'. */
  lemma BadEntryIff(entry: string)
    ensures ParseEntry(entry) == Err(BadEntry) <==> !HasTwoColons(entry)
  {
    var i := IndexOf(entry, ':');
    NoColonBefore(entry, i);
    if i < |entry| {
      var rest := entry[i + 1..];
      var j := IndexOf(rest, ':');
      NoColonBefore(rest, j);
      assert forall k :: i < k < |entry| ==> entry[k] == rest[k - i - 1];
      BindingErrors(Split(rest[..j], ';'));
      if j < |rest| {
        assert entry[i] == ':' && entry[i + 1 + j] == ':';
      }
    }
  }

  /** What the three parts of an entry come to: an id that begins with "app-" is an application,
      which needs no ports; any other is a cluster, which does. */
  lemma EntryMeans(id: string, spec: string, token: string)
    requires ':' !in id && ':' !in spec
    ensures ParseEntry(id + ":" + (spec + ":" + token))
         == match ParseBindings(Split(spec, ';'))
            case Err(e) => Err(e)
            case Ok(ports) =>
              if "app-" <= id then Ok(SpokeConfig(id, Application, ports, token))
              else if ports == [] then Err(NoPorts)
              else Ok(SpokeConfig(id, Cluster, ports, token))
  {
    CutAt(id + ":" + (spec + ":" + token), id, ':', spec + ":" + token);
    CutAt(spec + ":" + token, spec, ':', token);
  }

  // ---- the table ----

  predicate AllSpace(s: string) {
    forall k :: 0 <= k < |s| ==> IsSpace(s[k])
  }

  lemma {:induction false} TrimEmptyIff(s: string)
    ensures Trim(s) == "" <==> AllSpace(s)
  {
    LeftEmptyIff(s);
    if TrimLeft(s) != "" {
      var i := TrimLeftSlice(s);
      RightKeeps(TrimLeft(s));
    }
  }

  lemma {:induction false} LeftEmptyIff(s: string)
    ensures TrimLeft(s) == "" <==> AllSpace(s)
  {
    if s != "" && IsSpace(s[0]) {
      LeftEmptyIff(s[1..]);
      assert AllSpace(s) <==> AllSpace(s[1..]) by {
        assert forall k :: 1 <= k < |s| ==> s[k] == s[1..][k - 1];
      }
    }
  }

  lemma {:induction false} RightKeeps(s: string)
    requires s != "" && !IsSpace(s[0])
    ensures TrimRight(s) != ""
  {
    if IsSpace(s[|s| - 1]) {
      RightKeeps(s[..|s| - 1]);
    }
  }

  lemma LeftPadded(front: string, text: string)
    requires AllSpace(front) && text != "" && !IsSpace(text[0])
    ensures TrimLeft(front + text) == text
    decreases |front|
  {
    if front == "" {
      assert front + text == text;
    } else {
      assert (front + text)[1..] == front[1..] + text;
      assert forall k :: 0 <= k < |front[1..]| ==> front[1..][k] == front[k + 1];
      LeftPadded(front[1..], text);
    }
  }

  lemma RightPadded(text: string, back: string)
    requires AllSpace(back) && text != "" && !IsSpace(text[|text| - 1])
    ensures TrimRight(text + back) == text
    decreases |back|
  {
    if back == "" {
      assert text + back == text;
    } else {
      assert (text + back)[..|text + back| - 1] == text + back[..|back| - 1];
      RightPadded(text, back[..|back| - 1]);
    }
  }

  /** Trimming takes off exactly the white space around a text. */
  lemma PaddingGoes(front: string, text: string, back: string)
    requires AllSpace(front) && AllSpace(back) && text != "" && Trimmed(text)
    ensures Trim(front + (text + back)) == text
  {
    LeftPadded(front, text + back);
    RightPadded(text, back);
  }

  /** One more entry: a blank one is skipped; any other, trimmed, is entered under its id, in the
      place of an earlier one. */
  lemma EntryPieceMeans(pieces: seq<string>, piece: string, t: Table)
    requires ParseEntries(pieces) == Ok(t)
    ensures ParseEntries(pieces + [piece])
         == if AllSpace(piece) then Ok(t)
            else match ParseEntry(Trim(piece))
                 case Ok(sc) => Ok(t[sc.id := sc])
                 case Err(e) => Err(e)
  {
    assert (pieces + [piece])[..|pieces|] == pieces;
    TrimEmptyIff(piece);
  }

  lemma {:induction false} EntriesErrors(pieces: seq<string>)
    ensures var r := ParseEntries(pieces); r.Err? ==> !r.error.TableMissing?
  {
    if pieces != [] {
      EntriesErrors(pieces[..|pieces| - 1]);
      var entry := Trim(pieces[|pieces| - 1]);
      EntryErrors(entry);
    }
  }

  lemma EntryErrors(entry: string)
    ensures ParseEntry(entry).Err? ==> !ParseEntry(entry).error.TableMissing?
  {
    var i := IndexOf(entry, ':');
    if i < |entry| {
      var rest := entry[i + 1..];
      BindingErrors(Split(rest[..IndexOf(rest, ':')], ';'));
    }
  }

  /** The table counts as missing if and only if it is blank. */
  lemma TableMissingIff(raw: string)
    ensures ParseTable(raw) == Err(TableMissing) <==> AllSpace(raw)
  {
    TrimEmptyIff(raw);
    EntriesErrors(Split(Trim(raw), ','));
  }

  /** An entry that cannot be parsed makes the whole table fail with its error, whatever follows,
      when all entries before it can be parsed. */
  lemma FirstErrorWins(raw: string, k: nat)
    requires !AllSpace(raw) && k < |Split(Trim(raw), ',')|
    requires var pieces := Split(Trim(raw), ',');
      ParseEntries(pieces[..k]).Ok? && Trim(pieces[k]) != "" && ParseEntry(Trim(pieces[k])).Err?
    ensures ParseTable(raw) == Err(ParseEntry(Trim(Split(Trim(raw), ',')[k])).error)
  {
    var pieces := Split(Trim(raw), ',');
    TrimEmptyIff(raw);
    assert pieces[..k + 1][..k] == pieces[..k];
    EntryErrorStays(pieces, k + 1);
  }

  // ---- the documented examples ----

  lemma DecimalSteps(n: nat)
    requires n >= 10
    ensures Decimal(n) == Decimal(n / 10) + [DigitChar(n % 10)]
  {
  }

  lemma PortTexts()
    ensures Decimal(10001) == "10001" && Decimal(10011) == "10011"
  {
    DecimalSteps(10);
    DecimalSteps(100);
    DecimalSteps(1000);
    DecimalSteps(1001);
    DecimalSteps(10001);
    DecimalSteps(10011);
    assert Decimal(1) == "1" && Decimal(10) == "10" && Decimal(100) == "100";
    assert Decimal(1000) == "1000" && Decimal(1001) == "1001";
  }

  lemma OneBinding(pb: string, b: Binding)
    requires pb != "" && Trim(pb) == pb && ';' !in pb && ParseBinding(pb) == Ok(b)
    ensures ParseBindings(Split(pb, ';')) == Ok([b])
  {
    SplitJoin([pb], ';');
    assert Join([pb], ';') == pb && [pb][..0] == [];
    assert ParseBindings([pb][..0]) == Ok([]) && [] + [b] == [b];
  }

  lemma DefaultBinding()
    ensures Trim("10001") == "10001" && ParseBinding("10001") == Ok(Binding(10001, "default"))
  {
    PortTexts();
    PortMeans(10001, "");
    BindingMeans("10001", "");
    TrimFixed("10001");
  }

  /** One port, bound to its target by default. */
  lemma OnePortExample(id: string, token: string)
    requires id == "spoke-example" && token == "tokenA"
    ensures ParseEntry(id + ":" + ("10001" + ":" + token))
         == Ok(SpokeConfig(id, Cluster, [Binding(10001, "default")], token))
  {
    DefaultBinding();
    assert id[0] == 's' && "app-"[0] == 'a';
    OneBinding("10001", Binding(10001, "default"));
    EntryOfCluster(id, "10001", token, [Binding(10001, "default")]);
  }

  lemma TwoPortsText(b: Binding, c: Binding)
    requires b == Binding(10001, "default") && c == Binding(10011, "apiserver")
    ensures Join(PrintBindings([b, c]), ';') == "10001@default;10011@apiserver"
  {
    PortTexts();
    assert PrintBinding(b) == "10001@default" && PrintBinding(c) == "10011@apiserver";
    PrintedTwo(b, c);
  }

  lemma PrintedTwo(b: Binding, c: Binding)
    ensures Join(PrintBindings([b, c]), ';') == PrintBinding(b) + ";" + PrintBinding(c)
  {
    assert [b, c][..1] == [b] && [b][..0] == [];
    assert PrintBindings([b]) == [PrintBinding(b)];
    assert PrintBindings([b, c]) == [PrintBinding(b), PrintBinding(c)];
  }

  lemma TwoPortsParse(spec: string, b: Binding, c: Binding)
    requires b == Binding(10001, "default") && c == Binding(10011, "apiserver")
    requires spec == "10001@default;10011@apiserver"
    ensures ParseBindings(Split(spec, ';')) == Ok([b, c]) && ':' !in spec
  {
    TwoPortsText(b, c);
    DocumentedTargets(b, c);
    PortSpecRoundTrip([b, c]);
  }

  lemma DocumentedTargets(b: Binding, c: Binding)
    requires b.target == "default" && c.target == "apiserver"
    ensures GoodTargets([b, c])
  {
    assert GoodTarget(b.target) && GoodTarget(c.target);
  }

  lemma EntryOfCluster(id: string, spec: string, token: string, bs: seq<Binding>)
    requires ':' !in id && ':' !in spec && !("app-" <= id) && bs != []
    requires ParseBindings(Split(spec, ';')) == Ok(bs)
    ensures ParseEntry(id + ":" + (spec + ":" + token)) == Ok(SpokeConfig(id, Cluster, bs, token))
  {
    EntryMeans(id, spec, token);
  }

  /** Two ports, each with its target. */
  lemma TwoPortsExample(id: string, spec: string, token: string)
    requires id == "spoke-example" && spec == "10001@default;10011@apiserver" && token == "tokenA"
    ensures ParseEntry(id + ":" + (spec + ":" + token))
         == Ok(SpokeConfig(id, Cluster, [Binding(10001, "default"), Binding(10011, "apiserver")], token))
  {
    var b, c := Binding(10001, "default"), Binding(10011, "apiserver");
    TwoPortsParse(spec, b, c);
    assert id[0] == 's' && "app-"[0] == 'a';
    EntryOfCluster(id, spec, token, [b, c]);
  }
}
