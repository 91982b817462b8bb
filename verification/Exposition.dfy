/** The Prometheus text of the exporter, and a reader that gets every sample back. */
module Exposition {
  import opened Wrappers
  import opened Labels
  import Ordering
  import Text

  datatype Metric = Up | Sessions | Clients | Rx | Tx | Dtls

  datatype Scraped = Scraped(name: string, up: bool, clients: nat)

  datatype Session = Session(inst: string, commonName: string, rx: nat, tx: nat, dtls: bool)

  // One series: metric name, labels, and the value as printed.
  datatype Sample = Sample(name: string, labels: seq<(string, string)>, value: string)

  const INSTANCE := "instance"
  const COMMON_NAME := "common_name"

  function Name(m: Metric): string {
    "openconnect_" + Suffix(m)
  }

  function Suffix(m: Metric): string {
    match m
    case Up => "instance_up"
    case Sessions => "instance_sessions"
    case Clients => "instance_clients"
    case Rx => "user_rx_bytes_total"
    case Tx => "user_tx_bytes_total"
    case Dtls => "session_dtls"
  }

  function Kind(m: Metric): string {
    if m.Rx? || m.Tx? then "counter" else "gauge"
  }

  // In two halves each: the verifier is quick on short literals only.
  function About(m: Metric): string {
    match m
    case Up => "1 if the ocserv instance " + "process is up."
    case Sessions => "Currently connected " + "sessions per instance."
    case Clients => "Provisioned clients " + "per instance."
    case Rx => "Bytes received from " + "the client (server\U{2190} client)."
    case Tx => "Bytes sent to the client " + "(server\U{2192} client)."
    case Dtls => "1 if the session is on " + "the DTLS (UDP) fast path."
  }

  function HelpLine(m: Metric): string {
    "# HELP " + Name(m) + " " + About(m)
  }

  function TypeLine(m: Metric): string {
    "# TYPE " + Name(m) + " " + Kind(m)
  }

  // A sample line; the value is already text.
  function MetricLine(m: Metric, block: string, value: string): string {
    Name(m) + block + " " + value
  }

  const METRICS := [Up, Sessions, Clients, Rx, Tx, Dtls]

  function Headers(ms: seq<Metric>): seq<string> {
    if ms == [] then [] else [HelpLine(ms[0]), TypeLine(ms[0])] + Headers(ms[1..])
  }

  // The number of sessions on an instance.
  function Count(ss: seq<Session>, name: string): nat {
    if ss == [] then 0 else Bit(ss[0].inst == name) + Count(ss[1..], name)
  }

  function InstanceLabels(name: string): seq<string> {
    [INSTANCE, name]
  }

  function SessionLabels(s: Session): seq<string> {
    [INSTANCE, s.inst, COMMON_NAME, s.commonName]
  }

  // num is how %g prints a count as a float64.
  function InstanceLines(i: Scraped, ss: seq<Session>, num: nat -> string): seq<string> {
    var block := Block(InstanceLabels(i.name));
    [MetricLine(Up, block, num(Bit(i.up))),
     MetricLine(Sessions, block, num(Count(ss, i.name))),
     MetricLine(Clients, block, num(i.clients))]
  }

  function SessionLines(s: Session, num: nat -> string): seq<string> {
    var block := Block(SessionLabels(s));
    [MetricLine(Rx, block, num(s.rx)),
     MetricLine(Tx, block, num(s.tx)),
     MetricLine(Dtls, block, num(Bit(s.dtls)))]
  }

  function AllInstanceLines(ins: seq<Scraped>, ss: seq<Session>, num: nat -> string): (lines: seq<string>)
    ensures |lines| == 3 * |ins|
  {
    if ins == [] then [] else InstanceLines(ins[0], ss, num) + AllInstanceLines(ins[1..], ss, num)
  }

  function AllSessionLines(ss: seq<Session>, num: nat -> string): (lines: seq<string>)
    ensures |lines| == 3 * |ss|
  {
    if ss == [] then [] else SessionLines(ss[0], num) + AllSessionLines(ss[1..], num)
  }

  // Every line ended by a newline.
  function Unlines(lines: seq<string>): string {
    if lines == [] then "" else lines[0] + [Text.NL] + Unlines(lines[1..])
  }

  function Lines(ins: seq<Scraped>, ss: seq<Session>, num: nat -> string): seq<string> {
    Headers(METRICS) + AllInstanceLines(ins, ss, num) + AllSessionLines(ss, num)
  }

  // ------------------------------------------------ Render, step by step

  lemma {:induction false} UnlinesConcat(a: seq<string>, b: seq<string>)
    ensures Unlines(a + b) == Unlines(a) + Unlines(b)
  {
    if a == [] {
      assert a + b == b;
    } else {
      assert (a + b)[1..] == a[1..] + b;
      UnlinesConcat(a[1..], b);
    }
  }

  lemma UnlinesThree(a: string, b: string, c: string)
    ensures Unlines([a, b, c]) == a + [Text.NL] + b + [Text.NL] + c + [Text.NL]
  {
    assert [a, b, c][1..] == [b, c];
    UnlinesTwo(b, c);
  }

  lemma UnlinesTwo(a: string, b: string)
    ensures Unlines([a, b]) == a + [Text.NL] + b + [Text.NL]
  {
    assert [a, b][1..] == [b];
    assert [b][1..] == [];
    assert Unlines([b]) == b + [Text.NL];
  }

  lemma {:induction false} HeadersSnoc(ms: seq<Metric>, m: Metric)
    ensures Headers(ms + [m]) == Headers(ms) + [HelpLine(m), TypeLine(m)]
  {
    hide HelpLine, TypeLine;
    if ms == [] {
      assert ms + [m] == [m] && [m][1..] == [];
    } else {
      assert (ms + [m])[1..] == ms[1..] + [m];
      HeadersSnoc(ms[1..], m);
    }
  }

  lemma {:induction false} InstancesSnoc(ins: seq<Scraped>, i: Scraped, ss: seq<Session>, num: nat -> string)
    ensures AllInstanceLines(ins + [i], ss, num) == AllInstanceLines(ins, ss, num) + InstanceLines(i, ss, num)
  {
    hide InstanceLines;
    if ins == [] {
      assert ins + [i] == [i] && [i][1..] == [];
    } else {
      assert (ins + [i])[1..] == ins[1..] + [i];
      InstancesSnoc(ins[1..], i, ss, num);
    }
  }

  lemma {:induction false} SessionsSnoc(ss: seq<Session>, s: Session, num: nat -> string)
    ensures AllSessionLines(ss + [s], num) == AllSessionLines(ss, num) + SessionLines(s, num)
  {
    hide SessionLines;
    if ss == [] {
      assert ss + [s] == [s] && [s][1..] == [];
    } else {
      assert (ss + [s])[1..] == ss[1..] + [s];
      SessionsSnoc(ss[1..], s, num);
    }
  }

  lemma {:induction false} CountSnoc(ss: seq<Session>, s: Session, name: string)
    ensures Count(ss + [s], name) == Count(ss, name) + Bit(s.inst == name)
  {
    if ss == [] {
      assert ss + [s] == [s] && [s][1..] == [];
    } else {
      assert (ss + [s])[1..] == ss[1..] + [s];
      CountSnoc(ss[1..], s, name);
    }
  }

  lemma {:induction false} CountSplit(a: seq<Session>, s: Session, b: seq<Session>, name: string)
    ensures Count(a + [s] + b, name) == Bit(s.inst == name) + Count(a + b, name)
  {
    if a == [] {
      assert a + [s] + b == [s] + b && a + b == b && ([s] + b)[1..] == b;
    } else {
      assert (a + [s] + b)[1..] == a[1..] + [s] + b && (a + b)[1..] == a[1..] + b;
      CountSplit(a[1..], s, b, name);
    }
  }

  /** Sorting the sessions does not change any count. */
  lemma {:induction false} CountPermuted(a: seq<Session>, b: seq<Session>, name: string)
    requires multiset(a) == multiset(b)
    ensures Count(a, name) == Count(b, name)
  {
    if a == [] {
      assert |b| == |multiset(b)| == |multiset(a)| == 0;
    } else {
      var front, back := Without(a, b);
      CountPermuted(a[1..], front + back, name);
      CountSplit(front, a[0], back, name);
    }
  }

  lemma Without(a: seq<Session>, b: seq<Session>) returns (front: seq<Session>, back: seq<Session>)
    requires a != [] && multiset(a) == multiset(b)
    ensures b == front + [a[0]] + back
    ensures multiset(a[1..]) == multiset(front + back)
  {
    hide *;
    Shared(a, b);
    front, back := Around(a[0], b);
    Removed(a[0], front, back, b);
    assert a == [] + [a[0]] + a[1..];
    Removed(a[0], [], a[1..], a);
    assert [] + a[1..] == a[1..];
  }

  lemma Shared(a: seq<Session>, b: seq<Session>)
    requires a != [] && multiset(a) == multiset(b)
    ensures a[0] in b
  {
    hide *;
    assert a[0] in multiset(a);
    assert a[0] in multiset(b);
  }

  lemma Around(s: Session, b: seq<Session>) returns (front: seq<Session>, back: seq<Session>)
    requires s in b
    ensures b == front + [s] + back
  {
    hide *;
    var i :| 0 <= i < |b| && b[i] == s;
    front, back := b[..i], b[i + 1..];
  }

  lemma Removed(s: Session, front: seq<Session>, back: seq<Session>, whole: seq<Session>)
    requires whole == front + [s] + back
    ensures multiset(front + back) == multiset(whole) - multiset{s}
  {
    hide *;
    assert multiset(whole) == multiset(front) + multiset{s} + multiset(back);
    assert multiset(front + back) == multiset(front) + multiset(back);
  }

  // byInstance: only names with a session are present.
  ghost predicate Tally(per: map<string, nat>, ss: seq<Session>) {
    forall name: string :: (if name in per then per[name] else 0) == Count(ss, name)
  }

  method CountSessions(ss: seq<Session>) returns (per: map<string, nat>)
    ensures Tally(per, ss)
  {
    per := map[];
    for i := 0 to |ss|
      invariant Tally(per, ss[..i])
    {
      var s := ss[i];
      ghost var was := per;
      per := per[s.inst := (if s.inst in per then per[s.inst] else 0) + 1];
      assert ss[..i + 1] == ss[..i] + [s];
      forall name: string ensures (if name in per then per[name] else 0) == Count(ss[..i + 1], name) {
        CountSnoc(ss[..i], s, name);
        assert (if name in was then was[name] else 0) == Count(ss[..i], name);
      }
    }
    assert ss[..|ss|] == ss;
  }

  method WriteHelp() returns (b: string)
    ensures b == Unlines(Headers(METRICS))
  {
    hide HelpLine, TypeLine, Name;
    b := "";
    var ms := METRICS;
    for i := 0 to |ms|
      invariant b == Unlines(Headers(ms[..i]))
    {
      assert ms[..i + 1] == ms[..i] + [ms[i]];
      HeadersSnoc(ms[..i], ms[i]);
      UnlinesConcat(Headers(ms[..i]), [HelpLine(ms[i]), TypeLine(ms[i])]);
      UnlinesTwo(HelpLine(ms[i]), TypeLine(ms[i]));
      b := b + (HelpLine(ms[i]) + [Text.NL] + TypeLine(ms[i]) + [Text.NL]);
    }
    assert ms[..|ms|] == ms;
  }

  method WriteInstances(ins: seq<Scraped>, ss: seq<Session>, num: nat -> string) returns (b: string)
    ensures b == Unlines(AllInstanceLines(ins, ss, num))
  {
    hide MetricLine, Block, Unlines, AllInstanceLines, Headers, Count;
    var per := CountSessions(ss);
    b := "";
    Empty(ss, num);
    for i := 0 to |ins|
      invariant b == Unlines(AllInstanceLines(ins[..i], ss, num))
    {
      var x := ins[i];
      var block := BuildLabels([INSTANCE, x.name]);
      var n := if x.name in per then per[x.name] else 0;
      var up := MetricLine(Up, block, num(Bit(x.up)));
      var sessions := MetricLine(Sessions, block, num(n));
      var clients := MetricLine(Clients, block, num(x.clients));
      assert [up, sessions, clients] == InstanceLines(x, ss, num);
      assert ins[..i + 1] == ins[..i] + [x];
      InstancesSnoc(ins[..i], x, ss, num);
      UnlinesConcat(AllInstanceLines(ins[..i], ss, num), [up, sessions, clients]);
      UnlinesThree(up, sessions, clients);
      b := b + (up + [Text.NL] + sessions + [Text.NL] + clients + [Text.NL]);
    }
    assert ins[..|ins|] == ins;
  }

  method WriteSessions(ss: seq<Session>, num: nat -> string) returns (b: string)
    ensures b == Unlines(AllSessionLines(ss, num))
  {
    hide MetricLine, Block, Unlines, AllSessionLines, Headers;
    b := "";
    Empty(ss, num);
    for i := 0 to |ss|
      invariant b == Unlines(AllSessionLines(ss[..i], num))
    {
      var s := ss[i];
      var block := BuildLabels([INSTANCE, s.inst, COMMON_NAME, s.commonName]);
      var rx := MetricLine(Rx, block, num(s.rx));
      var tx := MetricLine(Tx, block, num(s.tx));
      var dtls := MetricLine(Dtls, block, num(Bit(s.dtls)));
      assert [rx, tx, dtls] == SessionLines(s, num);
      assert ss[..i + 1] == ss[..i] + [s];
      SessionsSnoc(ss[..i], s, num);
      UnlinesConcat(AllSessionLines(ss[..i], num), [rx, tx, dtls]);
      UnlinesThree(rx, tx, dtls);
      b := b + (rx + [Text.NL] + tx + [Text.NL] + dtls + [Text.NL]);
    }
    assert ss[..|ss|] == ss;
  }

  lemma Empty(ss: seq<Session>, num: nat -> string)
    ensures Unlines([]) == "" && AllInstanceLines([], ss, num) == [] && AllSessionLines([], num) == []
  {
  }

  // What sort.Slice establishes by instance name.
  predicate ByName(ins: seq<Scraped>) {
    forall i, j | 0 <= i < j < |ins| :: !Ordering.Less(ins[j].name, ins[i].name)
  }

  predicate SessionLess(a: Session, b: Session) {
    if a.inst != b.inst then Ordering.Less(a.inst, b.inst) else Ordering.Less(a.commonName, b.commonName)
  }

  // What sort.Slice establishes for sessions; equal ones may stand in any order.
  predicate ByUser(ss: seq<Session>) {
    forall i, j | 0 <= i < j < |ss| :: !SessionLess(ss[j], ss[i])
  }

  /** Render: the sessions are counted as they come; instances and users are printed in sorted order. */
  method Render(ins: seq<Scraped>, byName: seq<Scraped>, ss: seq<Session>, byUser: seq<Session>, num: nat -> string)
    returns (text: string)
    requires multiset(byName) == multiset(ins) && ByName(byName)
    requires multiset(byUser) == multiset(ss) && ByUser(byUser)
    ensures text == Unlines(Lines(byName, byUser, num))
  {
    hide Unlines, AllInstanceLines, AllSessionLines, Headers, ByName, ByUser;
    var help := WriteHelp();
    var instances := WriteInstances(byName, ss, num);
    SortedInstanceLines(byName, ss, byUser, num);
    var sessions := WriteSessions(byUser, num);
    UnlinesConcat(Headers(METRICS), AllInstanceLines(byName, byUser, num));
    UnlinesConcat(Headers(METRICS) + AllInstanceLines(byName, byUser, num), AllSessionLines(byUser, num));
    text := help + instances + sessions;
  }

  /**
   * Instances with distinct names have one sorted order, so scrapes differ at most
   * in the order of a user's own sessions.
   */
  lemma {:induction false} OneOrder(a: seq<Scraped>, b: seq<Scraped>)
    requires multiset(a) == multiset(b) && ByName(a) && ByName(b) && DistinctNames(a) && DistinctNames(b)
    ensures a == b
    decreases |a|
  {
    hide Ordering.Less;
    assert |b| == |multiset(b)| == |multiset(a)| == |a|;
    if a != [] {
      SameFirst(a, b);
      SameRest(a, b);
      assert a == [a[0]] + a[1..] && b == [b[0]] + b[1..];
      OneOrder(a[1..], b[1..]);
    }
  }

  lemma SameRest(a: seq<Scraped>, b: seq<Scraped>)
    requires multiset(a) == multiset(b) && a != [] && b != [] && a[0] == b[0]
    ensures multiset(a[1..]) == multiset(b[1..])
  {
    hide *;
    assert a == [a[0]] + a[1..] && b == [b[0]] + b[1..];
    assert multiset(a) == multiset{a[0]} + multiset(a[1..]);
    assert multiset(b) == multiset{a[0]} + multiset(b[1..]);
    assert multiset(a[1..]) == multiset(a) - multiset{a[0]};
    assert multiset(b[1..]) == multiset(b) - multiset{a[0]};
  }

  lemma SameFirst(a: seq<Scraped>, b: seq<Scraped>)
    requires multiset(a) == multiset(b) && ByName(a) && ByName(b) && DistinctNames(b) && a != [] && b != []
    ensures a[0] == b[0]
  {
    hide Ordering.Less;
    assert a[0] in multiset(a) && b[0] in multiset(b);
    assert a[0] in multiset(b) && b[0] in multiset(a);
    var i :| 0 <= i < |b| && b[i] == a[0];
    var j :| 0 <= j < |a| && a[j] == b[0];
    Ordering.LessTotal(a[0].name, b[0].name);
    NotLessSelf(a[0].name);
    assert !Ordering.Less(a[0].name, b[0].name) && !Ordering.Less(b[0].name, a[0].name);
  }

  /** And two sorted orders of the sessions show the same user at every place. */
  lemma {:induction false} UserOrder(a: seq<Session>, b: seq<Session>, i: nat)
    requires multiset(a) == multiset(b) && ByUser(a) && ByUser(b) && i < |a|
    ensures |b| == |a| && a[i].inst == b[i].inst && a[i].commonName == b[i].commonName
    decreases i
  {
    hide Ordering.Less, SessionLess;
    assert |b| == |multiset(b)| == |multiset(a)| == |a|;
    SameFirstUser(a, b);
    if i > 0 {
      // The first of a may stand elsewhere among equals in b.
      var front, back := Without(a, b);
      StillByUser(front, a[0], back);
      UserOrder(a[1..], front + back, i - 1);
      ShiftedUser(a, b, front, back, i);
    }
  }

  lemma SameUserTrans(a: Session, b: Session)
    ensures !SessionLess(a, b) && !SessionLess(b, a) <==> a.inst == b.inst && a.commonName == b.commonName
  {
    hide Ordering.Less;
    Ordering.LessTotal(a.inst, b.inst);
    Ordering.LessTotal(a.commonName, b.commonName);
    if Ordering.Less(a.inst, b.inst) {
      Ordering.LessAntisymmetric(a.inst, b.inst);
    }
    if Ordering.Less(b.inst, a.inst) {
      Ordering.LessAntisymmetric(b.inst, a.inst);
    }
    NotLessSelf(a.commonName);
  }

  lemma {:induction false} NotLessSelf(s: string)
    ensures !Ordering.Less(s, s)
  {
    if s != "" {
      NotLessSelf(s[1..]);
    }
  }

  lemma SameFirstUser(a: seq<Session>, b: seq<Session>)
    requires multiset(a) == multiset(b) && ByUser(a) && ByUser(b) && a != [] && b != []
    ensures a[0].inst == b[0].inst && a[0].commonName == b[0].commonName
  {
    hide SessionLess;
    assert a[0] in multiset(a) && b[0] in multiset(b);
    assert a[0] in multiset(b) && b[0] in multiset(a);
    var i :| 0 <= i < |b| && b[i] == a[0];
    var j :| 0 <= j < |a| && a[j] == b[0];
    SameUserTrans(a[0], b[0]);
    assert i > 0 ==> !SessionLess(b[i], b[0]);
    assert j > 0 ==> !SessionLess(a[j], a[0]);
  }

  lemma StillByUser(front: seq<Session>, s: Session, back: seq<Session>)
    requires ByUser(front + [s] + back)
    ensures ByUser(front + back)
  {
    hide SessionLess;
    var b, c := front + [s] + back, front + back;
    forall i, j | 0 <= i < j < |c| ensures !SessionLess(c[j], c[i]) {
      var i', j' := if i < |front| then i else i + 1, if j < |front| then j else j + 1;
      assert c[i] == b[i'] && c[j] == b[j'];
    }
  }

  // Everything before the taken session is of the same user.
  lemma ShiftedUser(a: seq<Session>, b: seq<Session>, front: seq<Session>, back: seq<Session>, i: nat)
    requires a != [] && b == front + [a[0]] + back && ByUser(b) && 0 < i < |b|
    requires b[0].inst == a[0].inst && b[0].commonName == a[0].commonName
    ensures var c := front + back; c[i - 1].inst == b[i].inst && c[i - 1].commonName == b[i].commonName
  {
    hide SessionLess;
    var c, k := front + back, |front|;
    if i - 1 >= k {
      assert c[i - 1] == back[i - 1 - k] == b[i];
    } else {
      assert c[i - 1] == b[i - 1] && b[k] == a[0];
      BetweenEquals(b, i - 1, k);
      BetweenEquals(b, i, k);
    }
  }

  lemma BetweenEquals(b: seq<Session>, i: nat, k: nat)
    requires ByUser(b) && i <= k < |b| && b[k].inst == b[0].inst && b[k].commonName == b[0].commonName
    ensures b[i].inst == b[0].inst && b[i].commonName == b[0].commonName
  {
    hide SessionLess;
    SameUserTrans(b[0], b[i]);
    SameUserTrans(b[0], b[k]);
    SameUserTrans(b[k], b[i]);
    assert 0 < i ==> !SessionLess(b[i], b[0]);
    assert i < k ==> !SessionLess(b[k], b[i]);
    if 0 < i < k {
      SameLess(b[0], b[k], b[i]);
    }
  }

  lemma SameLess(a: Session, b: Session, c: Session)
    requires a.inst == b.inst && a.commonName == b.commonName
    ensures SessionLess(a, c) == SessionLess(b, c) && SessionLess(c, a) == SessionLess(c, b)
  {
    hide Ordering.Less;
  }

  lemma {:induction false} SortedInstanceLines(ins: seq<Scraped>, a: seq<Session>, b: seq<Session>, num: nat -> string)
    requires multiset(a) == multiset(b)
    ensures AllInstanceLines(ins, a, num) == AllInstanceLines(ins, b, num)
  {
    hide MetricLine, Block, Count;
    if ins != [] {
      CountPermuted(a, b, ins[0].name);
      SortedInstanceLines(ins[1..], a, b, num);
    }
  }

  // ------------------------------------------------ lines

  // Numbers are printed without line breaks.
  ghost predicate PlainNumbers(num: nat -> string) {
    forall n: nat :: Text.NL !in num(n)
  }

  predicate OneLiners(lines: seq<string>) {
    forall i | 0 <= i < |lines| :: Text.NL !in lines[i]
  }

  function Newlines(s: string): nat {
    if s == "" then 0 else Bit(s[0] == Text.NL) + Newlines(s[1..])
  }

  lemma {:induction false} NewlinesSkip(p: string, r: string)
    requires Text.NL !in p
    ensures Newlines(p + r) == Newlines(r)
  {
    if p == "" {
      assert p + r == r;
    } else {
      assert forall c | c in p[1..] :: c in p;
      assert p[0] in p;
      assert (p + r)[1..] == p[1..] + r;
      NewlinesSkip(p[1..], r);
    }
  }

  lemma {:induction false} LinesSplit(lines: seq<string>)
    requires OneLiners(lines)
    ensures Text.Split(Unlines(lines), Text.NL) == lines + [""]
    ensures Newlines(Unlines(lines)) == |lines|
  {
    hide Text.Split;
    if lines == [] {
      Text.SplitWhole("", Text.NL);
    } else {
      var rest := Unlines(lines[1..]);
      LinesSplit(lines[1..]);
      Text.SplitCons(lines[0], rest, Text.NL);
      assert lines[0] + [Text.NL] + rest == lines[0] + ([Text.NL] + rest);
      NewlinesSkip(lines[0], [Text.NL] + rest);
      assert ([Text.NL] + rest)[1..] == rest;
      assert lines + [""] == [lines[0]] + (lines[1..] + [""]);
    }
  }

  lemma NamesPlain(m: Metric)
    ensures Text.NL !in Name(m) && '{' !in Name(m) && Name(m) != "" && Name(m)[0] != '#'
  {
    SuffixOneLine(m);
    SuffixNoBrace(m);
    hide Suffix;
    assert "openconnect_"[0] == 'o';
  }

  lemma SuffixOneLine(m: Metric)
    ensures Text.NL !in Suffix(m)
  {
  }

  lemma SuffixNoBrace(m: Metric)
    ensures '{' !in Suffix(m)
  {
  }

  lemma UpPlain()
    ensures Text.NL !in About(Up)
  {
    assert Text.NL !in "1 if the ocserv instance ";
    assert Text.NL !in "process is up.";
  }

  lemma SessionsPlain()
    ensures Text.NL !in About(Sessions)
  {
    assert Text.NL !in "Currently connected ";
    assert Text.NL !in "sessions per instance.";
  }

  lemma ClientsPlain()
    ensures Text.NL !in About(Clients)
  {
    assert Text.NL !in "Provisioned clients ";
    assert Text.NL !in "per instance.";
  }

  lemma RxPlain()
    ensures Text.NL !in About(Rx)
  {
    assert Text.NL !in "Bytes received from ";
    assert Text.NL !in "the client (server\U{2190} client).";
  }

  lemma TxPlain()
    ensures Text.NL !in About(Tx)
  {
    assert Text.NL !in "Bytes sent to the client ";
    assert Text.NL !in "(server\U{2192} client).";
  }

  lemma DtlsPlain()
    ensures Text.NL !in About(Dtls)
  {
    assert Text.NL !in "1 if the session is on ";
    assert Text.NL !in "the DTLS (UDP) fast path.";
  }

  lemma AboutPlain(m: Metric)
    ensures Text.NL !in About(m) && Text.NL !in Kind(m)
  {
    KindPlain(m);
    hide About, Kind;
    match m
    case Up => UpPlain();
    case Sessions => SessionsPlain();
    case Clients => ClientsPlain();
    case Rx => RxPlain();
    case Tx => TxPlain();
    case Dtls => DtlsPlain();
  }

  lemma KindPlain(m: Metric)
    ensures Text.NL !in Kind(m)
  {
  }

  lemma HeadersPlain()
    ensures OneLiners(Headers(METRICS)) && |Headers(METRICS)| == 12
    ensures forall i | 0 <= i < 12 :: Headers(METRICS)[i] != "" && Headers(METRICS)[i][0] == '#'
  {
    HeadersShape(METRICS);
  }

  lemma {:induction false} HeadersShape(ms: seq<Metric>)
    ensures OneLiners(Headers(ms)) && |Headers(ms)| == 2 * |ms|
    ensures forall i | 0 <= i < 2 * |ms| :: Headers(ms)[i] != "" && Headers(ms)[i][0] == '#'
  {
    hide HelpLine, TypeLine;
    if ms != [] {
      HeadersShape(ms[1..]);
      HeaderPair(ms[0]);
      assert Headers(ms)[0] == HelpLine(ms[0]) && Headers(ms)[1] == TypeLine(ms[0]);
      assert Headers(ms)[2..] == Headers(ms[1..]);
      assert forall i | 2 <= i < 2 * |ms| :: Headers(ms)[i] == Headers(ms[1..])[i - 2];
    }
  }

  lemma HeaderPair(m: Metric)
    ensures HelpLine(m) != "" && HelpLine(m)[0] == '#' && Text.NL !in HelpLine(m)
    ensures TypeLine(m) != "" && TypeLine(m)[0] == '#' && Text.NL !in TypeLine(m)
  {
    NamesPlain(m);
    AboutPlain(m);
    hide Name, About, Kind;
  }

  lemma KeysPlain(a: string, b: string)
    ensures Keys([INSTANCE, a]) && Keys([INSTANCE, a, COMMON_NAME, b])
    ensures OneLineKeys([INSTANCE, a]) && OneLineKeys([INSTANCE, a, COMMON_NAME, b])
  {
  }

  // ------------------------------------------------ samples

  // The samples of the text, with the series names and label names that scrapers rely on.
  function Expected(ins: seq<Scraped>, ss: seq<Session>, num: nat -> string): seq<Sample> {
    InstanceSamples(ins, ss, num) + SessionSamples(ss, num)
  }

  function InstanceSample(i: Scraped, ss: seq<Session>, num: nat -> string): seq<Sample> {
    var labels := [("instance", i.name)];
    [Sample("openconnect_instance_up", labels, num(if i.up then 1 else 0)),
     Sample("openconnect_instance_sessions", labels, num(Count(ss, i.name))),
     Sample("openconnect_instance_clients", labels, num(i.clients))]
  }

  function SessionSample(s: Session, num: nat -> string): seq<Sample> {
    var labels := [("instance", s.inst), ("common_name", s.commonName)];
    [Sample("openconnect_user_rx_bytes_total", labels, num(s.rx)),
     Sample("openconnect_user_tx_bytes_total", labels, num(s.tx)),
     Sample("openconnect_session_dtls", labels, num(if s.dtls then 1 else 0))]
  }

  function InstanceSamples(ins: seq<Scraped>, ss: seq<Session>, num: nat -> string): seq<Sample> {
    if ins == [] then [] else InstanceSample(ins[0], ss, num) + InstanceSamples(ins[1..], ss, num)
  }

  function SessionSamples(ss: seq<Session>, num: nat -> string): seq<Sample> {
    if ss == [] then [] else SessionSample(ss[0], num) + SessionSamples(ss[1..], num)
  }

  // ------------------------------------------------ literal names

  lemma UpName()
    ensures Name(Up) == "openconnect_instance_up" && Name(Clients) == "openconnect_instance_clients"
  {
    assert "openconnect_" + "instance_up" == "openconnect_instance_up";
    assert "openconnect_" + "instance_clients" == "openconnect_instance_clients";
  }

  lemma SessionsName()
    ensures Name(Sessions) == "openconnect_instance_sessions" && Name(Dtls) == "openconnect_session_dtls"
  {
    assert "openconnect_" + "instance_sessions" == "openconnect_instance_sessions";
    assert "openconnect_" + "session_dtls" == "openconnect_session_dtls";
  }

  lemma BytesName()
    ensures Name(Rx) == "openconnect_user_rx_bytes_total" && Name(Tx) == "openconnect_user_tx_bytes_total"
  {
    assert "openconnect_" + "user_rx_bytes_total" == "openconnect_user_rx_bytes_total";
    assert "openconnect_" + "user_tx_bytes_total" == "openconnect_user_tx_bytes_total";
  }

  lemma LabelNames()
    ensures INSTANCE == "instance" && COMMON_NAME == "common_name"
  {
  }

  lemma BitIs(b: bool)
    ensures Bit(b) == if b then 1 else 0
  {
  }

  // The metric name: everything before the label block.
  function ReadName(s: string): (r: (string, string))
    ensures s == r.0 + r.1
  {
    if s == "" || s[0] == '{' then ("", s)
    else
      var (name, rest) := ReadName(s[1..]);
      ([s[0]] + name, rest)
  }

  function ReadSample(line: string): Option<Sample> {
    var (name, t) := ReadName(line);
    match ReadBlock(t)
    case None => None
    case Some((labels, rest)) =>
      if rest != "" && rest[0] == ' ' then Some(Sample(name, labels, rest[1..])) else None
  }

  // Comments are skipped; every other line must be a sample.
  function ReadLines(lines: seq<string>): Option<seq<Sample>> {
    if lines == [] then Some([])
    else if lines[0] == "" || lines[0][0] == '#' then ReadLines(lines[1..])
    else
      match (ReadSample(lines[0]), ReadLines(lines[1..]))
      case (Some(sample), Some(more)) => Some([sample] + more)
      case _ => None
  }

  function ReadText(text: string): Option<seq<Sample>> {
    ReadLines(Text.Split(text, Text.NL))
  }

  lemma {:induction false} NameRead(name: string, rest: string)
    requires '{' !in name && rest != "" && rest[0] == '{'
    ensures ReadName(name + rest) == (name, rest)
  {
    if name == "" {
      assert name + rest == rest;
    } else {
      assert forall c | c in name[1..] :: c in name;
      assert name[0] in name;
      assert (name + rest)[1..] == name[1..] + rest;
      NameRead(name[1..], rest);
      assert [name[0]] + name[1..] == name;
    }
  }

  lemma SampleRead(m: Metric, kv: seq<string>, value: string)
    requires Keys(kv) && kv != []
    ensures var line := MetricLine(m, Block(kv), value);
      line != "" && line[0] != '#' && ReadSample(line) == Some(Sample(Name(m), Pairs(kv), value))
  {
    NamesPlain(m);
    hide Name, ReadBlock, Keys, Pairs, Body;
    var line := MetricLine(m, Block(kv), value);
    var tail := [' '] + value;
    assert line == Name(m) + (Block(kv) + tail);
    NameRead(Name(m), Block(kv) + tail);
    LabelsReadBack(kv, tail);
    assert tail[1..] == value;
  }

  lemma MetricOneLine(m: Metric, kv: seq<string>, value: string)
    requires OneLineKeys(kv) && Text.NL !in value
    ensures Text.NL !in MetricLine(m, Block(kv), value)
  {
    NamesPlain(m);
    BlockOneLine(kv);
    hide Name, Block;
  }

  // Lines that read as samples.
  ghost predicate Reads(lines: seq<string>, samples: seq<Sample>) {
    && |lines| == |samples|
    && forall i | 0 <= i < |lines| ::
      lines[i] != "" && lines[i][0] != '#' && ReadSample(lines[i]) == Some(samples[i])
  }

  lemma ReadsConcat(a: seq<string>, b: seq<string>, x: seq<Sample>, y: seq<Sample>)
    requires Reads(a, x) && Reads(b, y)
    ensures Reads(a + b, x + y)
  {
    hide ReadSample;
  }

  lemma OneLinersConcat(a: seq<string>, b: seq<string>)
    requires OneLiners(a) && OneLiners(b)
    ensures OneLiners(a + b)
  {
  }

  lemma TwoPairs(a: string, b: string)
    ensures Pairs([INSTANCE, a, COMMON_NAME, b]) == [(INSTANCE, a), (COMMON_NAME, b)]
  {
    hide INSTANCE, COMMON_NAME;
    var kv := [INSTANCE, a, COMMON_NAME, b];
    assert kv[2..] == [COMMON_NAME, b];
    OnePair(COMMON_NAME, b);
  }

  lemma OnePair(k: string, v: string)
    ensures Pairs([k, v]) == [(k, v)]
  {
    assert [k, v][2..] == [];
  }

  lemma InstanceRead(i: Scraped, ss: seq<Session>, num: nat -> string)
    ensures Reads(InstanceLines(i, ss, num), InstanceSample(i, ss, num))
  {
    hide ReadSample, Name, MetricLine, Block, Pairs, Count, Keys, OneLineKeys, Bit, Key, INSTANCE, COMMON_NAME;
    UpName();
    SessionsName();
    LabelNames();
    BitIs(i.up);
    var kv := [INSTANCE, i.name];
    KeysPlain(i.name, "");
    OnePair(INSTANCE, i.name);
    SampleRead(Up, kv, num(Bit(i.up)));
    SampleRead(Sessions, kv, num(Count(ss, i.name)));
    SampleRead(Clients, kv, num(i.clients));
  }

  lemma SessionRead(s: Session, num: nat -> string)
    ensures Reads(SessionLines(s, num), SessionSample(s, num))
  {
    hide ReadSample, Name, MetricLine, Block, Pairs, Count, Keys, OneLineKeys, Bit, Key, INSTANCE, COMMON_NAME;
    BytesName();
    SessionsName();
    LabelNames();
    BitIs(s.dtls);
    var kv := [INSTANCE, s.inst, COMMON_NAME, s.commonName];
    KeysPlain(s.inst, s.commonName);
    TwoPairs(s.inst, s.commonName);
    SampleRead(Rx, kv, num(s.rx));
    SampleRead(Tx, kv, num(s.tx));
    SampleRead(Dtls, kv, num(Bit(s.dtls)));
  }

  lemma {:induction false} InstancesRead(ins: seq<Scraped>, ss: seq<Session>, num: nat -> string)
    ensures Reads(AllInstanceLines(ins, ss, num), InstanceSamples(ins, ss, num))
  {
    hide ReadSample, InstanceLines, InstanceSample;
    if ins != [] {
      InstanceRead(ins[0], ss, num);
      InstancesRead(ins[1..], ss, num);
      ReadsConcat(InstanceLines(ins[0], ss, num), AllInstanceLines(ins[1..], ss, num),
                  InstanceSample(ins[0], ss, num), InstanceSamples(ins[1..], ss, num));
    }
  }

  lemma {:induction false} SessionsRead(ss: seq<Session>, num: nat -> string)
    ensures Reads(AllSessionLines(ss, num), SessionSamples(ss, num))
  {
    hide ReadSample, SessionLines, SessionSample;
    if ss != [] {
      SessionRead(ss[0], num);
      SessionsRead(ss[1..], num);
      ReadsConcat(SessionLines(ss[0], num), AllSessionLines(ss[1..], num),
                  SessionSample(ss[0], num), SessionSamples(ss[1..], num));
    }
  }

  lemma {:induction false} InstancesOneLine(ins: seq<Scraped>, ss: seq<Session>, num: nat -> string)
    requires PlainNumbers(num)
    ensures OneLiners(AllInstanceLines(ins, ss, num))
  {
    hide MetricLine, Block, Count, OneLineKeys;
    if ins != [] {
      var kv := [INSTANCE, ins[0].name];
      KeysPlain(ins[0].name, "");
      MetricOneLine(Up, kv, num(Bit(ins[0].up)));
      MetricOneLine(Sessions, kv, num(Count(ss, ins[0].name)));
      MetricOneLine(Clients, kv, num(ins[0].clients));
      InstancesOneLine(ins[1..], ss, num);
      OneLinersConcat(InstanceLines(ins[0], ss, num), AllInstanceLines(ins[1..], ss, num));
    }
  }

  lemma {:induction false} SessionsOneLine(ss: seq<Session>, num: nat -> string)
    requires PlainNumbers(num)
    ensures OneLiners(AllSessionLines(ss, num))
  {
    hide MetricLine, Block, OneLineKeys;
    if ss != [] {
      var kv := [INSTANCE, ss[0].inst, COMMON_NAME, ss[0].commonName];
      KeysPlain(ss[0].inst, ss[0].commonName);
      MetricOneLine(Rx, kv, num(ss[0].rx));
      MetricOneLine(Tx, kv, num(ss[0].tx));
      MetricOneLine(Dtls, kv, num(Bit(ss[0].dtls)));
      SessionsOneLine(ss[1..], num);
      OneLinersConcat(SessionLines(ss[0], num), AllSessionLines(ss[1..], num));
    }
  }

  lemma LinesOneLine(ins: seq<Scraped>, ss: seq<Session>, num: nat -> string)
    requires PlainNumbers(num)
    ensures OneLiners(Lines(ins, ss, num))
  {
    hide OneLiners, AllInstanceLines, AllSessionLines, Headers, PlainNumbers;
    HeadersPlain();
    InstancesOneLine(ins, ss, num);
    SessionsOneLine(ss, num);
    OneLinersConcat(Headers(METRICS), AllInstanceLines(ins, ss, num));
    OneLinersConcat(Headers(METRICS) + AllInstanceLines(ins, ss, num), AllSessionLines(ss, num));
  }

  /** Whatever the names hold, the text has two lines a metric, three an instance and three a session. */
  lemma LineCount(ins: seq<Scraped>, ss: seq<Session>, num: nat -> string)
    requires PlainNumbers(num)
    ensures Newlines(Unlines(Lines(ins, ss, num))) == 12 + 3 * |ins| + 3 * |ss|
  {
    hide OneLiners, Unlines, Newlines, Text.Split, PlainNumbers;
    LinesOneLine(ins, ss, num);
    LinesSplit(Lines(ins, ss, num));
    HeadersPlain();
  }

  lemma {:induction false} CommentsSkipped(comments: seq<string>, rest: seq<string>)
    requires forall i | 0 <= i < |comments| :: comments[i] != "" && comments[i][0] == '#'
    ensures ReadLines(comments + rest) == ReadLines(rest)
  {
    hide ReadSample;
    if comments == [] {
      assert comments + rest == rest;
    } else {
      assert (comments + rest)[1..] == comments[1..] + rest;
      CommentsSkipped(comments[1..], rest);
    }
  }

  lemma {:induction false} SamplesRead(lines: seq<string>, samples: seq<Sample>)
    requires Reads(lines, samples)
    ensures ReadLines(lines + [""]) == Some(samples)
  {
    hide ReadSample;
    var all := lines + [""];
    if lines == [] {
      assert all[1..] == [];
    } else {
      assert all[1..] == lines[1..] + [""];
      assert Reads(lines[1..], samples[1..]);
      SamplesRead(lines[1..], samples[1..]);
      assert samples == [samples[0]] + samples[1..];
    }
  }

  /** Reading the text back gives every sample, in order: nothing in a name can forge, hide or merge a series. */
  lemma TextReadsBack(ins: seq<Scraped>, ss: seq<Session>, num: nat -> string)
    requires PlainNumbers(num)
    ensures ReadText(Unlines(Lines(ins, ss, num))) == Some(Expected(ins, ss, num))
  {
    hide *;
    var samples := AllInstanceLines(ins, ss, num) + AllSessionLines(ss, num);
    LinesOneLine(ins, ss, num);
    LinesSplit(Lines(ins, ss, num));
    HeadersPlain();
    InstancesRead(ins, ss, num);
    SessionsRead(ss, num);
    ReadsConcat(AllInstanceLines(ins, ss, num), AllSessionLines(ss, num),
                InstanceSamples(ins, ss, num), SessionSamples(ss, num));
    SamplesRead(samples, InstanceSamples(ins, ss, num) + SessionSamples(ss, num));
    CommentsSkipped(Headers(METRICS), samples + [""]);
    LinesShape(ins, ss, num);
    assert Lines(ins, ss, num) + [""] == Headers(METRICS) + (samples + [""]);
    ReadTextOf(Unlines(Lines(ins, ss, num)));
    ExpectedOf(ins, ss, num);
  }

  lemma LinesShape(ins: seq<Scraped>, ss: seq<Session>, num: nat -> string)
    ensures Lines(ins, ss, num) == Headers(METRICS) + AllInstanceLines(ins, ss, num) + AllSessionLines(ss, num)
  {
  }

  lemma ReadTextOf(text: string)
    ensures ReadText(text) == ReadLines(Text.Split(text, Text.NL))
  {
  }

  lemma ExpectedOf(ins: seq<Scraped>, ss: seq<Session>, num: nat -> string)
    ensures Expected(ins, ss, num) == InstanceSamples(ins, ss, num) + SessionSamples(ss, num)
  {
  }

  // ------------------------------------------------ the comment lines

  function Comments(lines: seq<string>): seq<string> {
    if lines == [] then []
    else (if lines[0] != "" && lines[0][0] == '#' then [lines[0]] else []) + Comments(lines[1..])
  }

  // The two comment lines of a series.
  function Described(name: string, about: string, kind: string): seq<string> {
    ["# HELP " + name + " " + about, "# TYPE " + name + " " + kind]
  }

  lemma {:induction false} AllComments(lines: seq<string>, rest: seq<string>)
    requires forall i | 0 <= i < |lines| :: lines[i] != "" && lines[i][0] == '#'
    ensures Comments(lines + rest) == lines + Comments(rest)
  {
    if lines == [] {
      assert lines + rest == rest;
    } else {
      assert (lines + rest)[1..] == lines[1..] + rest;
      AllComments(lines[1..], rest);
      assert lines == [lines[0]] + lines[1..];
    }
  }

  lemma {:induction false} NoComments(lines: seq<string>, samples: seq<Sample>)
    requires Reads(lines, samples)
    ensures Comments(lines + [""]) == []
  {
    hide ReadSample;
    var all := lines + [""];
    if lines == [] {
      assert all[1..] == [];
    } else {
      assert all[1..] == lines[1..] + [""];
      assert Reads(lines[1..], samples[1..]);
      NoComments(lines[1..], samples[1..]);
    }
  }

  lemma PairOf(m: Metric)
    ensures [HelpLine(m), TypeLine(m)] == Described(Name(m), About(m), Kind(m))
  {
    hide Name, About, Kind;
  }

  lemma HeadersCons(m: Metric, ms: seq<Metric>)
    ensures Headers([m] + ms) == Described(Name(m), About(m), Kind(m)) + Headers(ms)
  {
    hide HelpLine, TypeLine, Name, About, Kind, Described;
    PairOf(m);
    assert ([m] + ms)[1..] == ms;
  }

  lemma MetricsAre()
    ensures Headers([]) == []
    ensures METRICS == [Up] + ([Sessions] + ([Clients] + ([Rx] + ([Tx] + ([Dtls] + [])))))
  {
  }

  lemma SixLists(a: seq<string>, b: seq<string>, c: seq<string>, d: seq<string>, e: seq<string>, f: seq<string>)
    ensures a + (b + (c + (d + (e + (f + []))))) == a + b + c + d + e + f
  {
  }

  lemma SixHeaders()
    ensures Headers(METRICS)
         == Described(Name(Up), About(Up), Kind(Up)) + Described(Name(Sessions), About(Sessions), Kind(Sessions))
            + Described(Name(Clients), About(Clients), Kind(Clients)) + Described(Name(Rx), About(Rx), Kind(Rx))
            + Described(Name(Tx), About(Tx), Kind(Tx)) + Described(Name(Dtls), About(Dtls), Kind(Dtls))
  {
    hide *;
    var none: seq<Metric> := [];
    MetricsAre();
    HeadersCons(Dtls, none);
    HeadersCons(Tx, [Dtls] + none);
    HeadersCons(Rx, [Tx] + ([Dtls] + none));
    HeadersCons(Clients, [Rx] + ([Tx] + ([Dtls] + none)));
    HeadersCons(Sessions, [Clients] + ([Rx] + ([Tx] + ([Dtls] + none))));
    HeadersCons(Up, [Sessions] + ([Clients] + ([Rx] + ([Tx] + ([Dtls] + none)))));
    SixLists(Described(Name(Up), About(Up), Kind(Up)), Described(Name(Sessions), About(Sessions), Kind(Sessions)),
             Described(Name(Clients), About(Clients), Kind(Clients)), Described(Name(Rx), About(Rx), Kind(Rx)),
             Described(Name(Tx), About(Tx), Kind(Tx)), Described(Name(Dtls), About(Dtls), Kind(Dtls)));
  }

  lemma KindsAre()
    ensures Kind(Rx) == "counter" && Kind(Tx) == "counter"
    ensures Kind(Up) == "gauge" && Kind(Sessions) == "gauge" && Kind(Clients) == "gauge" && Kind(Dtls) == "gauge"
  {
  }

  lemma AboutInstances()
    ensures About(Up) == "1 if the ocserv instance " + "process is up."
    ensures About(Sessions) == "Currently connected " + "sessions per instance."
    ensures About(Clients) == "Provisioned clients " + "per instance."
  {
  }

  lemma AboutSessions()
    ensures About(Rx) == "Bytes received from " + "the client (server\U{2190} client)."
    ensures About(Tx) == "Bytes sent to the client " + "(server\U{2192} client)."
    ensures About(Dtls) == "1 if the session is on " + "the DTLS (UDP) fast path."
  {
  }

  /** The comments of the text describe each series once, in this order: the two byte series count, the rest measure. */
  lemma HeadersReadBack(ins: seq<Scraped>, ss: seq<Session>, num: nat -> string)
    requires PlainNumbers(num)
    ensures Comments(Text.Split(Unlines(Lines(ins, ss, num)), Text.NL))
         == Described("openconnect_instance_up", "1 if the ocserv instance " + "process is up.", "gauge")
            + Described("openconnect_instance_sessions", "Currently connected " + "sessions per instance.", "gauge")
            + Described("openconnect_instance_clients", "Provisioned clients " + "per instance.", "gauge")
            + Described("openconnect_user_rx_bytes_total",
                "Bytes received from " + "the client (server\U{2190} client).", "counter")
            + Described("openconnect_user_tx_bytes_total",
                "Bytes sent to the client " + "(server\U{2192} client).", "counter")
            + Described("openconnect_session_dtls", "1 if the session is on " + "the DTLS (UDP) fast path.", "gauge")
  {
    hide *;
    var samples := AllInstanceLines(ins, ss, num) + AllSessionLines(ss, num);
    LinesOneLine(ins, ss, num);
    LinesSplit(Lines(ins, ss, num));
    HeadersPlain();
    InstancesRead(ins, ss, num);
    SessionsRead(ss, num);
    ReadsConcat(AllInstanceLines(ins, ss, num), AllSessionLines(ss, num),
                InstanceSamples(ins, ss, num), SessionSamples(ss, num));
    NoComments(samples, InstanceSamples(ins, ss, num) + SessionSamples(ss, num));
    LinesShape(ins, ss, num);
    assert Lines(ins, ss, num) + [""] == Headers(METRICS) + (samples + [""]);
    AllComments(Headers(METRICS), samples + [""]);
    SixHeaders();
    UpName();
    SessionsName();
    BytesName();
    KindsAre();
    AboutInstances();
    AboutSessions();
  }

  /** Different (instance, common name) pairs give different label blocks. */
  lemma UsersApart(a: Session, b: Session)
    ensures Block(SessionLabels(a)) == Block(SessionLabels(b)) <==> a.inst == b.inst && a.commonName == b.commonName
  {
    if Block(SessionLabels(a)) == Block(SessionLabels(b)) {
      KeysPlain(a.inst, a.commonName);
      KeysPlain(b.inst, b.commonName);
      hide Block, Keys;
      LabelsInjective(SessionLabels(a), SessionLabels(b));
      TwoPairs(a.inst, a.commonName);
      TwoPairs(b.inst, b.commonName);
      assert Pairs(SessionLabels(a))[0] == Pairs(SessionLabels(b))[0];
      assert Pairs(SessionLabels(a))[1] == Pairs(SessionLabels(b))[1];
    }
  }

  // ------------------------------------------------ conservation

  function Total(ins: seq<Scraped>, ss: seq<Session>): nat {
    if ins == [] then 0 else Count(ss, ins[0].name) + Total(ins[1..], ss)
  }

  function On(ins: seq<Scraped>, ss: seq<Session>): seq<Session> {
    if ss == [] then []
    else (if Listed(ins, ss[0].inst) then [ss[0]] else []) + On(ins, ss[1..])
  }

  predicate Listed(ins: seq<Scraped>, name: string) {
    exists i | 0 <= i < |ins| :: ins[i].name == name
  }

  predicate DistinctNames(ins: seq<Scraped>) {
    forall i, j | 0 <= i < j < |ins| :: ins[i].name != ins[j].name
  }

  function Hits(ins: seq<Scraped>, name: string): nat {
    if ins == [] then 0 else Bit(ins[0].name == name) + Hits(ins[1..], name)
  }

  lemma {:induction false} HitsOnce(ins: seq<Scraped>, name: string)
    requires DistinctNames(ins)
    ensures Hits(ins, name) == Bit(Listed(ins, name))
  {
    if ins != [] {
      assert DistinctNames(ins[1..]);
      HitsOnce(ins[1..], name);
      if Listed(ins[1..], name) {
        var i :| 0 <= i < |ins[1..]| && ins[1..][i].name == name;
        assert ins[i + 1].name == name;
      }
      if Listed(ins, name) && ins[0].name != name {
        var i :| 0 <= i < |ins| && ins[i].name == name;
        assert ins[1..][i - 1].name == name;
      }
    }
  }

  lemma {:induction false} TotalCons(ins: seq<Scraped>, ss: seq<Session>)
    requires ss != []
    ensures Total(ins, ss) == Hits(ins, ss[0].inst) + Total(ins, ss[1..])
  {
    if ins != [] {
      TotalCons(ins[1..], ss);
    }
  }

  lemma {:induction false} TotalNone(ins: seq<Scraped>)
    ensures Total(ins, []) == 0
  {
    if ins != [] {
      TotalNone(ins[1..]);
    }
  }

  /** The per-instance session counts add up to the sessions on listed instances: none is missed or counted twice. */
  lemma {:induction false} SessionsConserved(ins: seq<Scraped>, ss: seq<Session>)
    requires DistinctNames(ins)
    ensures Total(ins, ss) == |On(ins, ss)|
  {
    if ss == [] {
      TotalNone(ins);
    } else {
      TotalCons(ins, ss);
      HitsOnce(ins, ss[0].inst);
      SessionsConserved(ins, ss[1..]);
    }
  }
}
