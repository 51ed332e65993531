/** What the hub answers to one proxied HTTP request, and what the spoke turns that answer
    into for the application. Bodies are byte strings; text stands for its encoding. */
module HttpGate {
  import opened SpokesTable

  type Int32 = x: int | -0x8000_0000 <= x < 0x8000_0000

  /** What the kernel did with a forwarded request. A real HTTP status is 100 to 999. */
  datatype KernelOutcome =
    | Answered(status: int, body: string)
    | Unreachable(message: string)
    | BodyLost(message: string)

  predicate RealStatus(s: int) {
    100 <= s <= 999
  }

  predicate PossibleOutcome(k: KernelOutcome) {
    k.Answered? ==> RealStatus(k.status)
  }

  datatype HttpResponse = HttpResponse(status: Int32, body: string, error: string)

  /** The labels of the hub's result counter. */
  datatype Label = RejectedKind | RejectedPath | UpstreamErr | Forwarded

  /** A spoke's standing with the hub: its kind and the exact-match path allowlist. */
  datatype Gate = Gate(kind: SpokeKind, allowed: set<string>)

  /** Three-stage check, then the kernel. The path compared is path and query together. */
  function HubAnswer(g: Gate, path: string, k: KernelOutcome): HttpResponse
    requires PossibleOutcome(k)
  {
    if g.kind != Application then HttpResponse(403, "application spoke required", "rejected_kind")
    else if path !in g.allowed then HttpResponse(403, "path not allowed: " + path, "rejected_path")
    else match k
         case Unreachable(m) => HttpResponse(0, "", "upstream error: " + m)
         case BodyLost(m) => HttpResponse(0, "", "upstream body error: " + m)
         case Answered(s, b) => HttpResponse(s, b, "")
  }

  function HubLabel(g: Gate, path: string, k: KernelOutcome): Label {
    if g.kind != Application then RejectedKind
    else if path !in g.allowed then RejectedPath
    else if k.Answered? then Forwarded
    else UpstreamErr
  }

  /** The label a response is counted under can be told from the response: the two rejections by
      their error, the kernel's own answers by having none. */
  lemma LabelMeans(g: Gate, path: string, k: KernelOutcome)
    requires PossibleOutcome(k)
    ensures var r, l := HubAnswer(g, path, k), HubLabel(g, path, k);
      && (l == RejectedKind <==> r == HttpResponse(403, "application spoke required", "rejected_kind"))
      && (l == RejectedPath <==> r == HttpResponse(403, "path not allowed: " + path, "rejected_path"))
      && (l == RejectedKind <==> r.error == "rejected_kind")
      && (l == RejectedPath <==> r.error == "rejected_path")
      && (l == UpstreamErr <==> r.error != "" && r.status == 0)
      && (l == Forwarded <==> r.error == "")
      && (l == Forwarded ==> k.Answered? && r == HttpResponse(k.status, k.body, ""))
      && (l == RejectedKind <==> g.kind == Cluster)
      && (l == RejectedPath <==> g.kind == Application && path !in g.allowed)
  {
    var error := HubAnswer(g, path, k).error;
    assert HubLabel(g, path, k).UpstreamErr? ==> error[0] == 'u';
    assert "rejected_kind"[9] == 'k' && "rejected_path"[9] == 'p' && "rejected_kind"[0] == 'r' == "rejected_path"[0];
  }

  const SERVICE_UNAVAILABLE := 503
  const BAD_GATEWAY := 502
  const GATEWAY_TIMEOUT := 504

  /** The reply every pending request gets when its session ends. */
  const FLUSH_REPLY := HttpResponse(503, "tunnel session ended", "tunnel session ended")

  /** `status as u16`, and 502 for a code that is not an HTTP status. */
  function StatusOf(s: Int32): int {
    var code := s % 0x1_0000;
    if RealStatus(code) then code else BAD_GATEWAY
  }

  /** Status and body the application gets for a reply. */
  function AppSees(r: HttpResponse): (int, string) {
    if r.error == "" then (StatusOf(r.status), r.body)
    else if r.status > 0 then (StatusOf(r.status), if r.body == "" then r.error else r.body)
    else (BAD_GATEWAY, r.error)
  }

  /** What any response from the hub shows as. Its status is taken as an unsigned 16-bit number, and
      as 502 if that is no HTTP status; an error text stands in for an empty body, and goes with
      502 when the status is not positive. */
  lemma ResponseShows(status: Int32, body: string, error: string, low: int, n: int)
    requires status == low + 0x1_0000 * n && 0 <= low < 0x1_0000
    ensures var shown := if 100 <= low <= 999 then low else 502;
      AppSees(HttpResponse(status, body, error))
      == if error == "" then (shown, body)
         else if status <= 0 then (502, error)
         else (shown, if body == "" then error else body)
  {
    assert status % 0x1_0000 == low;
  }

  /** The kernel's own status and body for an allowed path of an application spoke, 403
      before the kernel is asked, 502 when it could not answer. */
  function EndToEnd(g: Gate, path: string, k: KernelOutcome): (int, string) {
    if g.kind.Cluster? then (403, "application spoke required")
    else if path in g.allowed then
      match k
      case Answered(s, b) => (s, b)
      case Unreachable(m) => (502, "upstream error: " + m)
      case BodyLost(m) => (502, "upstream body error: " + m)
    else (403, "path not allowed: " + path)
  }

  lemma AppSeesEndToEnd(g: Gate, path: string, k: KernelOutcome)
    requires PossibleOutcome(k)
    ensures AppSees(HubAnswer(g, path, k)) == EndToEnd(g, path, k)
  {
    assert ("upstream error: " + "")[0] == 'u';
  }
}
