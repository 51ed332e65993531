/** The `TUNNEL_SPOKES` table: `id:port[@target][;port[@target]...]:token`, comma-separated. */
module SpokesTable {
  import opened Text

  datatype SpokeKind = Cluster | Application

  type Port = p: int | 0 <= p < 65536

  datatype Binding = Binding(port: Port, target: string)

  datatype SpokeConfig = SpokeConfig(id: string, kind: SpokeKind, ports: seq<Binding>, token: string)

  datatype ParseError = TableMissing | BadEntry | EmptyTarget | BadPort | NoPorts

  datatype Result<T> = Ok(value: T) | Err(error: ParseError)

  type Table = map<string, SpokeConfig>

  /** The kind is read off the id. */
  function KindOf(id: string): SpokeKind {
    if "app-" <= id then Application else Cluster
  }

  /** Unsigned 16-bit decimal: an optional plus sign, at least one digit, no overflow. */
  function ParsePort(s: string): Result<Port> {
    var digits := if s != [] && s[0] == '+' then s[1..] else s;
    if digits != [] && AllDigits(digits) && Value(digits) < 65536 then Ok(Value(digits)) else Err(BadPort)
  }

  /** `port[@target]`; the first '@' separates, and the port part is not trimmed again. */
  function ParseBinding(pb: string): Result<Binding> {
    var at := IndexOf(pb, '@');
    var target := if at < |pb| then Trim(pb[at + 1..]) else "default";
    if target == [] then Err(EmptyTarget)
    else match ParsePort(pb[..at])
         case Ok(p) => Ok(Binding(p, target))
         case Err(e) => Err(e)
  }

  function ParseBindings(pieces: seq<string>): Result<seq<Binding>> {
    if pieces == [] then Ok([])
    else match ParseBindings(pieces[..|pieces| - 1])
         case Err(e) => Err(e)
         case Ok(bs) =>
           var pb := Trim(pieces[|pieces| - 1]);
           if pb == [] then Ok(bs)
           else match ParseBinding(pb)
                case Err(e) => Err(e)
                case Ok(b) => Ok(bs + [b])
  }

  /** `splitn(3, ':')` must yield three parts; the token keeps any further ':'. */
  function ParseEntry(entry: string): (r: Result<SpokeConfig>)
    ensures r.Ok? ==> r.value.kind == if "app-" <= r.value.id then Application else Cluster
  {
    var i := IndexOf(entry, ':');
    if i == |entry| then Err(BadEntry)
    else
      var rest := entry[i + 1..];
      var j := IndexOf(rest, ':');
      if j == |rest| then Err(BadEntry)
      else
        var id := entry[..i];
        match ParseBindings(Split(rest[..j], ';'))
        case Err(e) => Err(e)
        case Ok(bs) =>
          if KindOf(id).Cluster? && bs == [] then Err(NoPorts)
          else Ok(SpokeConfig(id, KindOf(id), bs, rest[j + 1..]))
  }

  /** Entries in order; blank ones are skipped and a later entry replaces an earlier one. */
  function ParseEntries(pieces: seq<string>): Result<Table> {
    if pieces == [] then Ok(map[])
    else match ParseEntries(pieces[..|pieces| - 1])
         case Err(e) => Err(e)
         case Ok(t) =>
           var entry := Trim(pieces[|pieces| - 1]);
           if entry == [] then Ok(t)
           else match ParseEntry(entry)
                case Err(e) => Err(e)
                case Ok(sc) => Ok(t[sc.id := sc])
  }

  function ParseTable(raw: string): Result<Table> {
    if Trim(raw) == [] then Err(TableMissing) else ParseEntries(Split(Trim(raw), ','))
  }

  // ---- the loops of `load_config` ----

  lemma {:induction false} BindingErrorStays(pieces: seq<string>, i: nat)
    requires i <= |pieces| && ParseBindings(pieces[..i]).Err?
    ensures ParseBindings(pieces) == ParseBindings(pieces[..i])
    decreases |pieces|
  {
    if i == |pieces| {
      assert pieces[..i] == pieces;
    } else {
      var front := pieces[..|pieces| - 1];
      assert front[..i] == pieces[..i];
      BindingErrorStays(front, i);
    }
  }

  lemma {:induction false} EntryErrorStays(pieces: seq<string>, i: nat)
    requires i <= |pieces| && ParseEntries(pieces[..i]).Err?
    ensures ParseEntries(pieces) == ParseEntries(pieces[..i])
    decreases |pieces|
  {
    if i == |pieces| {
      assert pieces[..i] == pieces;
    } else {
      var front := pieces[..|pieces| - 1];
      assert front[..i] == pieces[..i];
      EntryErrorStays(front, i);
    }
  }

  method LoadBindings(portSpec: string) returns (r: Result<seq<Binding>>)
    ensures r == ParseBindings(Split(portSpec, ';'))
  {
    var pieces := Split(portSpec, ';');
    var bindings: seq<Binding> := [];
    var i := 0;
    while i < |pieces|
      invariant i <= |pieces| && ParseBindings(pieces[..i]) == Ok(bindings)
    {
      assert pieces[..i + 1][..i] == pieces[..i];
      var pb := Trim(pieces[i]);
      i := i + 1;
      if pb != [] {
        var b := ParseBinding(pb);
        if b.Err? {
          BindingErrorStays(pieces, i);
          return Err(b.error);
        }
        bindings := bindings + [b.value];
      }
    }
    assert pieces[..i] == pieces;
    r := Ok(bindings);
  }

  method LoadEntry(entry: string) returns (r: Result<SpokeConfig>)
    ensures r == ParseEntry(entry)
    ensures r.Ok? ==> r.value.kind == if "app-" <= r.value.id then Application else Cluster
  {
    var i := IndexOf(entry, ':');
    if i == |entry| {
      return Err(BadEntry);
    }
    var rest := entry[i + 1..];
    var j := IndexOf(rest, ':');
    if j == |rest| {
      return Err(BadEntry);
    }
    var bindings := LoadBindings(rest[..j]);
    if bindings.Err? {
      return Err(bindings.error);
    }
    var kind := KindOf(entry[..i]);
    if kind.Cluster? && bindings.value == [] {
      return Err(NoPorts);
    }
    r := Ok(SpokeConfig(entry[..i], kind, bindings.value, rest[j + 1..]));
  }

  method LoadTable(raw: string) returns (r: Result<Table>)
    ensures r == ParseTable(raw)
  {
    var text := Trim(raw);
    if text == [] {
      return Err(TableMissing);
    }
    var pieces := Split(text, ',');
    var spokes: Table := map[];
    var i := 0;
    while i < |pieces|
      invariant i <= |pieces| && ParseEntries(pieces[..i]) == Ok(spokes)
    {
      assert pieces[..i + 1][..i] == pieces[..i];
      var entry := Trim(pieces[i]);
      i := i + 1;
      if entry != [] {
        var sc := LoadEntry(entry);
        if sc.Err? {
          EntryErrorStays(pieces, i);
          return Err(sc.error);
        }
        spokes := spokes[sc.value.id := sc.value];
      }
    }
    assert pieces[..i] == pieces;
    r := Ok(spokes);
  }

  // ---- printing ----

  function PrintBinding(b: Binding): string {
    Decimal(b.port) + "@" + b.target
  }

  function PrintBindings(bs: seq<Binding>): (pieces: seq<string>)
    ensures |pieces| == |bs|
  {
    if bs == [] then [] else PrintBindings(bs[..|bs| - 1]) + [PrintBinding(bs[|bs| - 1])]
  }

  function PrintEntry(sc: SpokeConfig): string {
    sc.id + ":" + (if sc.ports == [] then "" else Join(PrintBindings(sc.ports), ';')) + ":" + sc.token
  }

  function PrintEntries(table: seq<SpokeConfig>): (pieces: seq<string>)
    ensures |pieces| == |table|
  {
    if table == [] then [] else PrintEntries(table[..|table| - 1]) + [PrintEntry(table[|table| - 1])]
  }

  function PrintTable(table: seq<SpokeConfig>): string
    requires table != []
  {
    Join(PrintEntries(table), ',')
  }

  /** The table as a map: the last entry of an id wins. */
  function TableOf(table: seq<SpokeConfig>): Table {
    if table == [] then map[]
    else TableOf(table[..|table| - 1])[table[|table| - 1].id := table[|table| - 1]]
  }

  predicate GoodTarget(t: string) {
    t != [] && Trimmed(t) && ',' !in t && ':' !in t && ';' !in t
  }

  predicate GoodTargets(bs: seq<Binding>) {
    forall i :: 0 <= i < |bs| ==> GoodTarget(bs[i].target)
  }

  /** The fields leave the separators to the format. Tokens may contain ':', targets '@'. */
  predicate Printable(sc: SpokeConfig) {
    && ',' !in sc.id && ':' !in sc.id && (sc.id != [] ==> !IsSpace(sc.id[0]))
    && ',' !in sc.token && (sc.token != [] ==> !IsSpace(sc.token[|sc.token| - 1]))
    && GoodTargets(sc.ports)
    && sc.kind == KindOf(sc.id)
    && (sc.kind.Cluster? ==> sc.ports != [])
  }
}
