/**
 Which login broadcasts to a broker (controllers/_device_mqtt_coordinator.py), and the
 silence ledger it judges devices by (controllers/_device_mqtt_monitor.py).

 Several logins may watch one broker endpoint; one of them is elected to
 broadcast.  Only a broadcaster turns devices offline, after a timeout that
 restarts whenever polling had paused.
 */
module BrokerElection {
  import opened Lists
  import opened Optional
  import opened TextOrder

  datatype Endpoint = Endpoint(host: string, port: int, transport: string, path: string)

  datatype BrokerKey = BrokerKey(endpoint: Endpoint, username: Option<string>, caDigest: Option<string>, skipCn: bool)

  /** What the election reads of a monitor. */
  datatype Flags = Flags(connected: bool, publisher: bool)

  type Fleet = map<BrokerKey, Flags>

  // ----- The order of candidates -----

  /** Connected first, then the incumbent, then anonymous, then by name, then by TLS settings. */
  datatype Rank = Rank(down: bool, challenger: bool, named: bool, username: string, digest: string, skipCn: bool)

  function TextOr(s: Option<string>): string {
    if s.Some? then s.value else ""
  }

  function RankOf(k: BrokerKey, f: Flags): Rank {
    Rank(!f.connected, !f.publisher, k.username.Some?, TextOr(k.username), TextOr(k.caDigest), k.skipCn)
  }

  /** The tail of the order: user name, digest, name check. */
  predicate TextRankLess(a: Rank, b: Rank) {
    || Less(a.username, b.username)
    || (a.username == b.username && Less(a.digest, b.digest))
    || (a.username == b.username && a.digest == b.digest && !a.skipCn && b.skipCn)
  }

  predicate RankLess(a: Rank, b: Rank) {
    if a.down != b.down then b.down
    else if a.challenger != b.challenger then b.challenger
    else if a.named != b.named then b.named
    else TextRankLess(a, b)
  }

  lemma RankIsTotal(a: Rank, b: Rank)
    ensures RankLess(a, b) || a == b || RankLess(b, a)
    ensures !(RankLess(a, b) && RankLess(b, a)) && !RankLess(a, a)
  {
    LessIsTotal(a.username, b.username);
    LessIsTotal(a.digest, b.digest);
    LessIsTotal(a.username, a.username);
    LessIsTotal(a.digest, a.digest);
  }

  lemma RankIsTransitive(a: Rank, b: Rank, c: Rank)
    requires RankLess(a, b) && RankLess(b, c)
    ensures RankLess(a, c)
  {
    if a.down == b.down == c.down && a.challenger == b.challenger == c.challenger && a.named == b.named == c.named {
      if Less(a.username, b.username) && Less(b.username, c.username) {
        LessIsTransitive(a.username, b.username, c.username);
      }
      if Less(a.digest, b.digest) && Less(b.digest, c.digest) {
        LessIsTransitive(a.digest, b.digest, c.digest);
      }
    }
  }

  /** A CA digest is a hash in hexadecimal, so never the empty string. */
  predicate DigestsReal(fleet: Fleet) {
    forall k | k in fleet :: k.caDigest != Some("")
  }

  /** Two logins of one broker tie only when they differ in nothing but a missing against an empty digest. */
  lemma TiesIff(a: BrokerKey, fa: Flags, b: BrokerKey, fb: Flags)
    requires a.endpoint == b.endpoint && a != b
    ensures RankOf(a, fa) == RankOf(b, fb) <==>
              fa == fb && a.username == b.username && a.skipCn == b.skipCn
              && ((a.caDigest.None? && b.caDigest == Some("")) || (a.caDigest == Some("") && b.caDigest.None?))
  {
    if RankOf(a, fa) == RankOf(b, fb) {
      assert a.username == b.username && a.caDigest != b.caDigest;
    }
  }

  // ----- The election -----

  predicate Beats(fleet: Fleet, k: BrokerKey, other: BrokerKey)
    requires k in fleet && other in fleet
  {
    RankLess(RankOf(k, fleet[k]), RankOf(other, fleet[other]))
  }

  /** `k` beats every other login of its endpoint. */
  ghost predicate IsElected(fleet: Fleet, k: BrokerKey) {
    k in fleet && forall other | other in fleet && other.endpoint == k.endpoint && other != k :: Beats(fleet, k, other)
  }

  /**
   Of two logins on one broker: a connected one comes before one that is not, then the broadcaster before others,
   then the anonymous login, then the lower user name, then the lower digest, then the one that checks names.
   */
  lemma BeatsIff(fleet: Fleet, k: BrokerKey, other: BrokerKey)
    requires k in fleet && other in fleet
    ensures Beats(fleet, k, other) <==>
              if fleet[k].connected != fleet[other].connected then fleet[k].connected
              else if fleet[k].publisher != fleet[other].publisher then fleet[k].publisher
              else if k.username.None? != other.username.None? then k.username.None?
              else if k.username != other.username then Less(k.username.value, other.username.value)
              else if TextOr(k.caDigest) != TextOr(other.caDigest) then Less(TextOr(k.caDigest), TextOr(other.caDigest))
              else !k.skipCn && other.skipCn
  {
    var a, b := RankOf(k, fleet[k]), RankOf(other, fleet[other]);
    LessIsTotal(a.username, b.username);
    LessIsTotal(a.digest, b.digest);
    LessIsTotal(a.username, a.username);
    LessIsTotal(a.digest, a.digest);
  }

  ghost function After(fleet: Fleet): Fleet {
    map k | k in fleet :: Flags(fleet[k].connected, IsElected(fleet, k))
  }

  lemma {:induction false} SomeoneIsElected(fleet: Fleet, among: set<BrokerKey>, e: Endpoint) returns (k: BrokerKey)
    requires DigestsReal(fleet) && among <= fleet.Keys && among != {} && forall m | m in among :: m.endpoint == e
    ensures k in among && forall other | other in among && other != k :: Beats(fleet, k, other)
    decreases |among|
  {
    var m: BrokerKey :| m in among;
    var rest := among - {m};
    if rest == {} {
      assert among == {m};
      k := m;
    } else {
      assert |rest| < |among|;
      var w := SomeoneIsElected(fleet, rest, e);
      RankIsTotal(RankOf(m, fleet[m]), RankOf(w, fleet[w]));
      TiesIff(m, fleet[m], w, fleet[w]);
      if Beats(fleet, w, m) {
        k := w;
      } else {
        k := m;
        assert Beats(fleet, m, w);
        forall other | other in among && other != m ensures Beats(fleet, m, other) {
          if other != w {
            assert other in rest && Beats(fleet, w, other);
            RankIsTransitive(RankOf(m, fleet[m]), RankOf(w, fleet[w]), RankOf(other, fleet[other]));
          }
        }
      }
    }
  }

  /** Every endpoint with monitors has exactly one broadcaster after an election. */
  lemma ExactlyOnePublisher(fleet: Fleet, e: Endpoint) returns (k: BrokerKey)
    requires DigestsReal(fleet) && exists m :: m in fleet && m.endpoint == e
    ensures k in fleet && k.endpoint == e && After(fleet)[k].publisher
    ensures forall other | other in fleet && other.endpoint == e && other != k :: !After(fleet)[other].publisher
  {
    var here := set m | m in fleet && m.endpoint == e;
    var m :| m in fleet && m.endpoint == e;
    assert m in here;
    k := SomeoneIsElected(fleet, here, e);
    forall other | other in fleet && other.endpoint == e && other != k ensures !IsElected(fleet, other) {
      assert other in here && Beats(fleet, k, other);
      RankIsTotal(RankOf(k, fleet[k]), RankOf(other, fleet[other]));
      assert !Beats(fleet, other, k);
    }
  }

  /** The broadcaster is connected whenever any login of the endpoint is. */
  lemma PublisherIsConnected(fleet: Fleet, k: BrokerKey, m: BrokerKey)
    requires IsElected(fleet, k) && m in fleet && m.endpoint == k.endpoint && fleet[m].connected
    ensures fleet[k].connected
  {
    if m != k {
      assert Beats(fleet, k, m);
    }
  }

  /** Electing again changes nothing. */
  lemma ElectionIsIdempotent(fleet: Fleet)
    requires DigestsReal(fleet)
    ensures After(After(fleet)) == After(fleet)
  {
    forall k | k in fleet ensures IsElected(After(fleet), k) == IsElected(fleet, k) {
      var w := ExactlyOnePublisher(fleet, k.endpoint);
      WinnerWinsAgain(fleet, w);
      if k != w {
        assert Beats(After(fleet), w, k);
        RankIsTotal(RankOf(w, After(fleet)[w]), RankOf(k, After(fleet)[k]));
      }
    }
  }

  lemma WinnerWinsAgain(fleet: Fleet, w: BrokerKey)
    requires DigestsReal(fleet) && IsElected(fleet, w)
    ensures IsElected(After(fleet), w)
  {
    forall other | other in fleet && other.endpoint == w.endpoint && other != w ensures Beats(After(fleet), w, other) {
      assert Beats(fleet, w, other);
      RankIsTotal(RankOf(w, fleet[w]), RankOf(other, fleet[other]));
      assert !Beats(fleet, other, w) && !IsElected(fleet, other);
    }
  }

  /** A connected broadcaster keeps the role while no other connected login holds it too. */
  lemma SoleIncumbentIsKept(fleet: Fleet, k: BrokerKey)
    requires k in fleet && fleet[k] == Flags(true, true)
    requires forall m | m in fleet && m.endpoint == k.endpoint && m != k :: fleet[m] != Flags(true, true)
    ensures IsElected(fleet, k)
  {
    forall m | m in fleet && m.endpoint == k.endpoint && m != k ensures Beats(fleet, k, m) {
      assert fleet[m] != Flags(true, true);
    }
  }

  /** So, once elected, a connected broadcaster survives any coming and going of the others. */
  lemma NoChurn(fleet: Fleet, k: BrokerKey, later: Fleet)
    requires DigestsReal(fleet) && IsElected(fleet, k) && k in later && later[k] == Flags(true, true)
    requires forall m | m in later && m != k && m.endpoint == k.endpoint :: later[m].publisher ==>
             m in fleet && After(fleet)[m].publisher
    ensures IsElected(later, k)
  {
    forall m | m in later && m.endpoint == k.endpoint && m != k ensures !later[m].publisher {
      if m in fleet {
        var w := ExactlyOnePublisher(fleet, k.endpoint);
        assert w == k;
      }
    }
    SoleIncumbentIsKept(later, k);
  }

  // ----- One monitor -----

  const OFFLINE_TIMEOUT := 65.0

  /** When each device was last known to have had its chance to answer. */
  type Ledger = map<string, real>

  class Monitor {
    var isPublisher: bool
    var connected: bool
    var publishErrorLogged: bool
    var lastSeen: Ledger
    // history: each listed device's last message, the last restart of the silence window, and the latest time
    ghost var heard: Ledger
    ghost var rebasedAt: real
    ghost var clock: real

    constructor (now: real)
      ensures isPublisher && !connected && lastSeen == map[]
      ensures Valid() && clock == now
    {
      isPublisher, connected, publishErrorLogged := true, false, false;
      lastSeen, heard, rebasedAt, clock := map[], map[], now, now;
    }

    ghost predicate Valid()
      reads this
    {
      && lastSeen.Keys == heard.Keys && rebasedAt <= clock
      && forall n | n in lastSeen ::
        heard[n] <= lastSeen[n] <= clock && (heard[n] <= rebasedAt ==> rebasedAt <= lastSeen[n])
    }

    function View(): Flags
      reads this
    {
      Flags(connected, isPublisher)
    }

    method Rebase(now: real)
      requires Valid() && clock <= now
      modifies this`lastSeen, this`rebasedAt, this`clock
      ensures Valid() && clock == now && rebasedAt == now
      ensures lastSeen == map n | n in old(lastSeen) :: now
    {
      lastSeen := map n | n in lastSeen :: now;
      rebasedAt, clock := now, now;
    }

    /** Promotion restarts the silence window. */
    method SetPublisher(value: bool, now: real)
      requires Valid() && clock <= now
      modifies this`isPublisher, this`lastSeen, this`rebasedAt, this`clock
      ensures Valid() && isPublisher == value && clock == now
      ensures if value && !old(isPublisher) then rebasedAt == now && lastSeen == map n | n in old(lastSeen) :: now
              else rebasedAt == old(rebasedAt) && lastSeen == old(lastSeen)
    {
      if value && !isPublisher {
        Rebase(now);
      }
      isPublisher := value;
      clock := now;
    }

    method Listen(name: string, now: real)
      requires Valid() && clock <= now
      modifies this
      ensures Valid() && lastSeen == old(lastSeen)[name := now] && heard == old(heard)[name := now]
      ensures isPublisher == old(isPublisher) && connected == old(connected) && rebasedAt == old(rebasedAt)
    {
      lastSeen := lastSeen[name := now];
      heard := heard[name := now];
      clock := now;
    }

    /** One broadcast's return code.  The first success after failures restarts the window. */
    method Broadcast(ok: bool, now: real) returns (sent: bool)
      requires Valid() && clock <= now
      modifies this
      ensures Valid() && sent == ok && lastSeen.Keys == old(lastSeen.Keys) && publishErrorLogged == !ok
      ensures ok && old(publishErrorLogged) ==> rebasedAt == now
      ensures !(ok && old(publishErrorLogged)) ==> rebasedAt == old(rebasedAt) && lastSeen == old(lastSeen)
      ensures isPublisher == old(isPublisher) && connected == old(connected) && heard == old(heard)
    {
      if ok && publishErrorLogged {
        Rebase(now);
      }
      publishErrorLogged := !ok;
      clock := now;
      return ok;
    }

    /** A failed session forgets what was seen. */
    method SessionLost(now: real)
      requires Valid() && clock <= now
      modifies this`lastSeen, this`heard, this`clock
      ensures Valid() && lastSeen == map[]
    {
      lastSeen, heard, clock := map[], map[], now;
    }

    /**
     Devices turned offline are just the listed ones whose entry is too old, and each has
     been silent for the whole timeout, with no pause in polling within it.
     */
    method SweepStale(now: real) returns (offline: set<string>)
      requires Valid() && clock <= now
      modifies this`lastSeen, this`heard, this`clock
      ensures Valid()
      ensures offline == set n | n in old(lastSeen) && now - old(lastSeen)[n] > OFFLINE_TIMEOUT
      ensures lastSeen == map n | n in old(lastSeen) && n !in offline :: old(lastSeen)[n]
      ensures forall n | n in offline ::
              now - old(heard)[n] > OFFLINE_TIMEOUT
              && (old(heard)[n] <= rebasedAt ==> now - rebasedAt > OFFLINE_TIMEOUT)
    {
      offline := set n | n in lastSeen && now - lastSeen[n] > OFFLINE_TIMEOUT;
      ghost var before := lastSeen;
      var todo := offline;
      while todo != {}
        invariant todo <= offline
        invariant lastSeen == map n | n in before && (n !in offline || n in todo) :: before[n]
        invariant heard == map n | n in old(heard) && (n !in offline || n in todo) :: old(heard)[n]
      {
        var n: string :| n in todo;
        lastSeen := lastSeen - {n};
        heard := heard - {n};
        todo := todo - {n};
      }
      clock := now;
    }
  }

  // ----- The election as it runs -----

  /** Python's `sorted`: a stable sort by rank. */
  function SortedBy(fleet: Fleet, keys: seq<BrokerKey>): (s: seq<BrokerKey>)
    requires forall k | k in keys :: k in fleet
    ensures forall k :: k in s <==> k in keys
    ensures |s| == |keys|
  {
    if keys == [] then [] else Placed(fleet, SortedBy(fleet, keys[..|keys| - 1]), keys[|keys| - 1])
  }

  /** `k` placed after everything that does not rank behind it. */
  function Placed(fleet: Fleet, s: seq<BrokerKey>, k: BrokerKey): (r: seq<BrokerKey>)
    requires k in fleet && forall m | m in s :: m in fleet
    ensures forall m :: m in r <==> m in s || m == k
    ensures |r| == |s| + 1
  {
    if s == [] || Beats(fleet, k, s[0]) then [k] + s else [s[0]] + Placed(fleet, s[1..], k)
  }

  ghost predicate Ascending(fleet: Fleet, s: seq<BrokerKey>)
    requires forall k | k in s :: k in fleet
  {
    forall i, j :: 0 <= i < j < |s| ==> !Beats(fleet, s[j], s[i])
  }

  lemma {:induction false} PlacedAscends(fleet: Fleet, s: seq<BrokerKey>, k: BrokerKey)
    requires k in fleet && (forall m | m in s :: m in fleet) && Ascending(fleet, s)
    ensures Ascending(fleet, Placed(fleet, s, k))
  {
    var r := Placed(fleet, s, k);
    if s == [] || Beats(fleet, k, s[0]) {
      FrontAscends(fleet, s, k);
    } else {
      var rest := Placed(fleet, s[1..], k);
      PlacedAscends(fleet, s[1..], k);
      forall j | 0 <= j < |rest| ensures !Beats(fleet, rest[j], s[0]) {
        assert rest[j] in rest;
        if rest[j] != k {
          var i :| 0 <= i < |s[1..]| && s[1..][i] == rest[j];
          assert s[i + 1] == rest[j];
        }
      }
      forall i, j | 0 <= i < j < |r| ensures !Beats(fleet, r[j], r[i]) {
        assert r[j] == rest[j - 1] && (i > 0 ==> r[i] == rest[i - 1]);
      }
    }
  }

  lemma FrontAscends(fleet: Fleet, s: seq<BrokerKey>, k: BrokerKey)
    requires k in fleet && (forall m | m in s :: m in fleet) && Ascending(fleet, s)
    requires s == [] || Beats(fleet, k, s[0])
    ensures Ascending(fleet, [k] + s)
  {
    var r := [k] + s;
    forall i, j | 0 <= i < j < |r| ensures !Beats(fleet, r[j], r[i]) {
      if i > 0 {
        assert r[i] == s[i - 1] && r[j] == s[j - 1];
      } else {
        NotBehindFirst(fleet, s, k, j - 1);
      }
    }
  }

  lemma NotBehindFirst(fleet: Fleet, s: seq<BrokerKey>, k: BrokerKey, j: nat)
    requires k in fleet && (forall m | m in s :: m in fleet) && Ascending(fleet, s) && j < |s| && Beats(fleet, k, s[0])
    ensures !Beats(fleet, s[j], k)
  {
    RankIsTotal(RankOf(k, fleet[k]), RankOf(s[0], fleet[s[0]]));
    if j > 0 && Beats(fleet, s[j], k) {
      RankIsTransitive(RankOf(s[j], fleet[s[j]]), RankOf(k, fleet[k]), RankOf(s[0], fleet[s[0]]));
      assert false;
    }
  }

  lemma {:induction false} SortedAscends(fleet: Fleet, keys: seq<BrokerKey>)
    requires forall k | k in keys :: k in fleet
    ensures Ascending(fleet, SortedBy(fleet, keys))
  {
    if keys != [] {
      SortedAscends(fleet, keys[..|keys| - 1]);
      PlacedAscends(fleet, SortedBy(fleet, keys[..|keys| - 1]), keys[|keys| - 1]);
    }
  }

  /** The first key of an endpoint in the sorted order is the elected one. */
  lemma FirstIsElected(fleet: Fleet, s: seq<BrokerKey>, i: nat)
    requires DigestsReal(fleet) && (forall k :: k in s <==> k in fleet) && Ascending(fleet, s) && i < |s|
    requires forall j | 0 <= j < i :: s[j].endpoint != s[i].endpoint
    ensures IsElected(fleet, s[i])
  {
    forall other | other in fleet && other.endpoint == s[i].endpoint && other != s[i]
      ensures Beats(fleet, s[i], other)
    {
      var j :| 0 <= j < |s| && s[j] == other;
      assert !Beats(fleet, s[j], s[i]);
      RankIsTotal(RankOf(s[i], fleet[s[i]]), RankOf(other, fleet[other]));
      TiesIff(s[i], fleet[s[i]], other, fleet[other]);
    }
  }

  function IndexOf(keys: seq<BrokerKey>, k: BrokerKey): (i: nat)
    requires k in keys
    ensures i < |keys| && keys[i] == k
  {
    if keys[0] == k then 0 else 1 + IndexOf(keys[1..], k)
  }

  /** What the election reads of a dictionary of monitors. */
  function FleetOf(keys: seq<BrokerKey>, fs: seq<Flags>): (fleet: Fleet)
    requires |keys| == |fs|
    ensures forall k :: k in fleet <==> k in keys
  {
    map k | k in keys :: fs[IndexOf(keys, k)]
  }

  lemma FleetAt(keys: seq<BrokerKey>, fs: seq<Flags>, i: nat)
    requires |keys| == |fs| && Distinct(keys) && i < |keys|
    ensures keys[i] in keys && FleetOf(keys, fs)[keys[i]] == fs[i]
  {
  }

  function Roles(keys: seq<BrokerKey>, elected: map<Endpoint, BrokerKey>): (roles: seq<bool>)
    requires forall k | k in keys :: k.endpoint in elected
    ensures |roles| == |keys|
  {
    seq(|keys|, i requires 0 <= i < |keys| => assert keys[i] in keys; elected[keys[i].endpoint] == keys[i])
  }

  /** If `after` are the flags once everyone has its role, they are those of one election. */
  ghost predicate Decided(keys: seq<BrokerKey>, fs: seq<Flags>, roles: seq<bool>, after: seq<Flags>)
    requires |keys| == |fs| == |roles|
  {
    |after| == |keys| && (forall i | 0 <= i < |keys| :: after[i] == Flags(fs[i].connected, roles[i])) ==>
      FleetOf(keys, after) == After(FleetOf(keys, fs))
  }

  lemma RolesAreElection(keys: seq<BrokerKey>, fs: seq<Flags>, roles: seq<bool>, after: seq<Flags>)
    requires |keys| == |fs| == |roles| && Distinct(keys)
    requires forall i | 0 <= i < |keys| :: roles[i] == IsElected(FleetOf(keys, fs), keys[i])
    ensures Decided(keys, fs, roles, after)
  {
    if |after| == |keys| && forall i | 0 <= i < |keys| :: after[i] == Flags(fs[i].connected, roles[i]) {
      forall k | k in keys ensures FleetOf(keys, after)[k] == After(FleetOf(keys, fs))[k] {
        FleetAt(keys, fs, IndexOf(keys, k));
        FleetAt(keys, after, IndexOf(keys, k));
      }
    }
  }

  method DecideRoles(keys: seq<BrokerKey>, fs: seq<Flags>) returns (roles: seq<bool>)
    requires |keys| == |fs| && Distinct(keys) && forall k | k in keys :: k.caDigest != Some("")
    ensures |roles| == |keys| && forall i | 0 <= i < |keys| :: roles[i] == IsElected(FleetOf(keys, fs), keys[i])
    ensures forall after :: Decided(keys, fs, roles, after)
  {
    var elected := Elect(FleetOf(keys, fs), keys);
    ElectedExactly(FleetOf(keys, fs), elected);
    roles := Roles(keys, elected);
    forall after ensures Decided(keys, fs, roles, after) {
      RolesAreElection(keys, fs, roles, after);
    }
  }

  class Coordinator {
    /** The registry: keys in dictionary order, and each one's monitor. */
    var keys: seq<BrokerKey>
    var sessions: seq<Monitor>

    constructor ()
      ensures keys == [] && sessions == [] && Valid()
    {
      keys, sessions := [], [];
    }

    ghost predicate Valid()
      reads this
    {
      |keys| == |sessions| && Distinct(keys) && Distinct(sessions) && forall k | k in keys :: k.caDigest != Some("")
    }

    function View(): Fleet
      reads this, sessions
      requires |keys| == |sessions|
    {
      FleetOf(keys, ViewsOf(sessions))
    }

    /** Designate one broadcaster per endpoint; each newly promoted one starts a fresh silence window. */
    method AssignPublishers(now: real)
      requires Valid() && forall m | m in sessions :: m.Valid() && m.clock <= now
      modifies sessions
      ensures Valid() && View() == After(old(View()))
      ensures forall m | m in sessions ::
                m.Valid() && m.lastSeen == Reseen(old(m.lastSeen), old(m.isPublisher), m.isPublisher, now)
    {
      var fs := ViewsOf(sessions);
      var roles := DecideRoles(keys, fs);
      Appoint(sessions, roles, now);
      assert Decided(keys, fs, roles, ViewsOf(sessions));
    }

    /** A session came up or went down: a change re-runs the election, a repeat does nothing. */
    method SetConnected(i: nat, value: bool, now: real)
      requires Valid() && i < |sessions| && forall m | m in sessions :: m.Valid() && m.clock <= now
      modifies sessions
      ensures Valid() && forall m | m in sessions :: m.Valid()
      ensures old(sessions[i].connected) == value ==> View() == old(View())
      ensures old(sessions[i].connected) != value ==>
                View() == After(FleetOf(keys, old(ViewsOf(sessions))[i := Flags(value, old(sessions[i].isPublisher))]))
    {
      if sessions[i].connected == value {
        return;
      }
      ghost var before := ViewsOf(sessions);
      sessions[i].connected := value;
      assert ViewsOf(sessions) == before[i := Flags(value, sessions[i].isPublisher)];
      AssignPublishers(now);
    }
  }

  function ViewsOf(ms: seq<Monitor>): (fs: seq<Flags>)
    reads ms
    ensures |fs| == |ms| && forall i | 0 <= i < |ms| :: fs[i] == ms[i].View()
  {
    seq(|ms|, i requires 0 <= i < |ms| reads ms => ms[i].View())
  }

  /** Tell every monitor its role. */
  method Appoint(ms: seq<Monitor>, roles: seq<bool>, now: real)
    requires Distinct(ms) && |roles| == |ms| && forall m | m in ms :: m.Valid() && m.clock <= now
    modifies ms
    ensures forall i | 0 <= i < |ms| :: ms[i].View() == Flags(old(ms[i].connected), roles[i])
    ensures forall m | m in ms ::
            m.Valid() && m.lastSeen == Reseen(old(m.lastSeen), old(m.isPublisher), m.isPublisher, now)
  {
    for i := 0 to |ms|
      invariant forall j | 0 <= j < i :: Settled(ms[j], old(ms[j].View()), old(ms[j].lastSeen), roles[j], now)
      invariant forall j | i <= j < |ms| :: Untouched(ms[j], old(ms[j].View()), old(ms[j].lastSeen), now)
    {
      assert Untouched(ms[i], old(ms[i].View()), old(ms[i].lastSeen), now);
      ms[i].SetPublisher(roles[i], now);
    }
    forall i | 0 <= i < |ms|
      ensures ms[i].View() == Flags(old(ms[i].connected), roles[i]) && ms[i].Valid()
      ensures ms[i].lastSeen == Reseen(old(ms[i].lastSeen), old(ms[i].isPublisher), roles[i], now) {
      assert Settled(ms[i], old(ms[i].View()), old(ms[i].lastSeen), roles[i], now);
    }
  }

  /** A monitor has its new role, and its ledger restarted if it was promoted. */
  ghost predicate Settled(m: Monitor, f: Flags, ledger: Ledger, publisher: bool, now: real)
    reads m
  {
    && m.Valid() && m.connected == f.connected && m.isPublisher == publisher
    && m.lastSeen == Reseen(ledger, f.publisher, publisher, now)
  }

  ghost predicate Untouched(m: Monitor, f: Flags, ledger: Ledger, now: real)
    reads m
  {
    m.Valid() && m.clock <= now && m.View() == f && m.lastSeen == ledger
  }

  ghost predicate Winners(fleet: Fleet, elected: map<Endpoint, BrokerKey>) {
    forall e | e in elected :: elected[e].endpoint == e && IsElected(fleet, elected[e])
  }

  ghost predicate FirstAt(sorted: seq<BrokerKey>, i: nat)
    requires i < |sorted|
  {
    forall j | 0 <= j < i :: sorted[j].endpoint != sorted[i].endpoint
  }

  /** The first key of each endpoint. */
  method FirstOfEach(sorted: seq<BrokerKey>, ghost winners: set<BrokerKey>) returns (elected: map<Endpoint, BrokerKey>)
    requires forall i | 0 <= i < |sorted| :: FirstAt(sorted, i) ==> sorted[i] in winners
    ensures forall e | e in elected :: elected[e].endpoint == e && elected[e] in winners
    ensures forall k | k in sorted :: k.endpoint in elected
  {
    elected := map[];
    for i := 0 to |sorted|
      invariant forall e | e in elected :: elected[e].endpoint == e && elected[e] in winners
      invariant forall j | 0 <= j < i :: sorted[j].endpoint in elected
    {
      if sorted[i].endpoint !in elected {
        assert FirstAt(sorted, i);
        elected := elected[sorted[i].endpoint := sorted[i]];
      }
    }
  }

  /** The elected key of each endpoint: the first one in the sorted order. */
  method Elect(fleet: Fleet, order: seq<BrokerKey>) returns (elected: map<Endpoint, BrokerKey>)
    requires DigestsReal(fleet) && forall k :: k in order <==> k in fleet
    ensures Winners(fleet, elected) && forall k | k in fleet :: k.endpoint in elected
  {
    var sorted := SortedBy(fleet, order);
    SortedAscends(fleet, order);
    forall i | 0 <= i < |sorted| && FirstAt(sorted, i) ensures IsElected(fleet, sorted[i]) {
      FirstIsElected(fleet, sorted, i);
    }
    elected := FirstOfEach(sorted, set k | k in fleet && IsElected(fleet, k));
  }

  function Reseen(before: Ledger, was: bool, chosen: bool, now: real): Ledger {
    if chosen && !was then map n | n in before :: now else before
  }

  lemma ElectedExactly(fleet: Fleet, elected: map<Endpoint, BrokerKey>)
    requires DigestsReal(fleet) && forall k | k in fleet :: k.endpoint in elected
    requires Winners(fleet, elected)
    ensures forall k | k in fleet :: IsElected(fleet, k) <==> elected[k.endpoint] == k
  {
    forall k | k in fleet ensures IsElected(fleet, k) <==> elected[k.endpoint] == k {
      var w := elected[k.endpoint];
      if k != w {
        assert Beats(fleet, w, k);
        RankIsTotal(RankOf(w, fleet[w]), RankOf(k, fleet[k]));
        assert !Beats(fleet, k, w);
      }
    }
  }
}
