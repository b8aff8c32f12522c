/** The monitored lines and their routers (syncer/types.go). */
module Lines {
  datatype Router = Router(ip: string, username: string, password: string, platform: string, protocol: string)

  /** `hash` is the stored digest of the other fields; how it is computed is not modelled. */
  datatype Line = Line(id: string, ip: string, interval: int, router: Router, hash: int)

  type LineMap = map<string, Line>

  /** Lines are indexed by their own IP. */
  predicate WellKeyed(m: LineMap) {
    forall ip :: ip in m ==> m[ip].ip == ip
  }

  predicate HasIp(ls: seq<Line>, ip: string) {
    exists i :: 0 <= i < |ls| && ls[i].ip == ip
  }

  predicate DistinctIps(ls: seq<Line>) {
    forall i, j :: 0 <= i < j < |ls| ==> ls[i].ip != ls[j].ip
  }

  /** Position of the first line with this IP, or the length. */
  function IndexOf(ls: seq<Line>, ip: string): (k: nat)
    ensures k <= |ls|
    ensures k < |ls| ==> ls[k].ip == ip
    ensures forall i :: 0 <= i < k ==> ls[i].ip != ip
  {
    if ls == [] then 0 else if ls[0].ip == ip then 0 else 1 + IndexOf(ls[1..], ip)
  }

  /** Line k is the first one with this IP. */
  predicate FirstWith(ls: seq<Line>, k: int, ip: string) {
    0 <= k < |ls| && ls[k].ip == ip && forall i :: 0 <= i < k ==> ls[i].ip != ip
  }

  function Without(ls: seq<Line>, ip: string): seq<Line> {
    var k := IndexOf(ls, ip);
    if k < |ls| then ls[..k] + ls[k + 1..] else ls
  }

  function Replaced(ls: seq<Line>, line: Line): seq<Line> {
    var k := IndexOf(ls, line.ip);
    if k < |ls| then ls[k := line] else ls
  }
}
