/** Merging every instance's ban list with its points list. */
module BanMerge {
  import opened Wrappers
  import opened BanList

  // What occtl printed for `show ip bans` and `show ip ban points`; None when the call failed.
  datatype Reply = Reply(bans: Option<string>, points: Option<string>)

  datatype Found = Found(inst: string, ban: Ban)

  // ShowIPBans and ShowIPBanPoints.
  function Parsed(out: Option<string>, banned: bool): Option<seq<Ban>> {
    match out
    case None => None
    case Some(text) => Bans(text, banned)
  }

  predicate Readable(r: Reply) {
    Parsed(r.bans, true).Some?
  }

  function BansOf(r: Reply): seq<Ban> {
    match Parsed(r.bans, true)
    case None => []
    case Some(bans) => bans
  }

  function PointsOf(r: Reply): seq<Ban> {
    match Parsed(r.points, false)
    case None => []
    case Some(points) => points
  }

  function Ips(bans: seq<Ban>): set<string> {
    set b | b in bans :: b.ip
  }

  function Tagged(name: string, bans: seq<Ban>): seq<Found> {
    if bans == [] then [] else [Found(name, bans[0])] + Tagged(name, bans[1..])
  }

  // The points whose address is not in seen.
  function Unseen(points: seq<Ban>, seen: set<string>): seq<Ban> {
    if points == [] then []
    else (if points[0].ip in seen then [] else [points[0]]) + Unseen(points[1..], seen)
  }

  function FromInstance(name: string, r: Reply): seq<Found> {
    if !Readable(r) then []
    else Tagged(name, BansOf(r)) + Tagged(name, Unseen(PointsOf(r), Ips(BansOf(r))))
  }

  function Merged(names: seq<string>, replies: map<string, Reply>): seq<Found>
    requires forall n | n in names :: n in replies
  {
    if names == [] then []
    else FromInstance(names[0], replies[names[0]]) + Merged(names[1..], replies)
  }

  function Failed(names: seq<string>, replies: map<string, Reply>): seq<string>
    requires forall n | n in names :: n in replies
  {
    if names == [] then []
    else (if Readable(replies[names[0]]) then [] else [names[0]]) + Failed(names[1..], replies)
  }

  // ------------------------------------------------ the loops

  lemma {:induction false} TaggedSnoc(name: string, bans: seq<Ban>, b: Ban)
    ensures Tagged(name, bans + [b]) == Tagged(name, bans) + [Found(name, b)]
  {
    if bans == [] {
      assert bans + [b] == [b] && [b][1..] == [];
    } else {
      assert (bans + [b])[1..] == bans[1..] + [b];
      TaggedSnoc(name, bans[1..], b);
    }
  }

  lemma {:induction false} UnseenSnoc(points: seq<Ban>, p: Ban, seen: set<string>)
    ensures Unseen(points + [p], seen) == Unseen(points, seen) + (if p.ip in seen then [] else [p])
  {
    var last := if p.ip in seen then [] else [p];
    if points == [] {
      assert points + [p] == [p];
      assert [p][1..] == [];
    } else {
      var first := if points[0].ip in seen then [] else [points[0]];
      var rest := Unseen(points[1..], seen);
      assert (points + [p])[1..] == points[1..] + [p] && (points + [p])[0] == points[0];
      UnseenSnoc(points[1..], p, seen);
      assert Unseen(points + [p], seen) == first + (rest + last);
      assert Unseen(points, seen) == first + rest;
      hide *;
      assert first + (rest + last) == first + rest + last;
    }
  }

  lemma {:induction false} MergedSnoc(names: seq<string>, n: string, replies: map<string, Reply>)
    requires n in replies && forall m | m in names :: m in replies
    ensures Merged(names + [n], replies) == Merged(names, replies) + FromInstance(n, replies[n])
    ensures Failed(names + [n], replies) == Failed(names, replies) + (if Readable(replies[n]) then [] else [n])
  {
    hide FromInstance, Readable, Merged, Failed;
    if names == [] {
      assert names + [n] == [n];
      MergedOne(n, replies);
    } else {
      var first, rest := names[0], names[1..];
      assert names + [n] == [first] + (rest + [n]) && names == [first] + rest;
      MergedSnoc(rest, n, replies);
      MergedCons(first, rest, replies);
      MergedCons(first, rest + [n], replies);
    }
  }

  lemma MergedOne(n: string, replies: map<string, Reply>)
    requires n in replies
    ensures Merged([], replies) == [] && Merged([n], replies) == FromInstance(n, replies[n])
    ensures Failed([], replies) == [] && Failed([n], replies) == if Readable(replies[n]) then [] else [n]
  {
    hide FromInstance, Readable;
    assert [n][1..] == [];
  }

  lemma MergedCons(n: string, rest: seq<string>, replies: map<string, Reply>)
    requires n in replies && forall m | m in rest :: m in replies
    ensures Merged([n] + rest, replies) == FromInstance(n, replies[n]) + Merged(rest, replies)
    ensures Failed([n] + rest, replies) == (if Readable(replies[n]) then [] else [n]) + Failed(rest, replies)
  {
    hide FromInstance, Readable;
    assert ([n] + rest)[1..] == rest;
  }

  method AddBans(name: string, bans: seq<Ban>) returns (out: seq<Found>, seen: set<string>)
    ensures out == Tagged(name, bans) && seen == Ips(bans)
  {
    out, seen := [], {};
    for i := 0 to |bans|
      invariant out == Tagged(name, bans[..i]) && seen == Ips(bans[..i])
    {
      var b := bans[i];
      assert bans[..i + 1] == bans[..i] + [b];
      TaggedSnoc(name, bans[..i], b);
      IpsSnoc(bans[..i], b);
      seen := seen + {b.ip};
      out := out + [Found(name, b)];
    }
    assert bans[..|bans|] == bans;
  }

  lemma IpsSnoc(bans: seq<Ban>, b: Ban)
    ensures Ips(bans + [b]) == Ips(bans) + {b.ip}
  {
  }

  method AddPoints(name: string, points: seq<Ban>, seen: set<string>) returns (out: seq<Found>)
    ensures out == Tagged(name, Unseen(points, seen))
  {
    out := [];
    for i := 0 to |points|
      invariant out == Tagged(name, Unseen(points[..i], seen))
    {
      var p := points[i];
      assert points[..i + 1] == points[..i] + [p];
      UnseenSnoc(points[..i], p, seen);
      if p.ip !in seen {
        TaggedSnoc(name, Unseen(points[..i], seen), p);
        out := out + [Found(name, p)];
      } else {
        assert Unseen(points[..i], seen) + [] == Unseen(points[..i], seen);
      }
    }
    assert points[..|points|] == points;
  }

  method Show(out: Option<string>, banned: bool) returns (bans: Option<seq<Ban>>)
    ensures bans == Parsed(out, banned)
  {
    if out.None? {
      return None;
    }
    bans := ParseBans(out.value, banned);
  }

  method ReadInstance(name: string, r: Reply) returns (ok: bool, out: seq<Found>)
    ensures ok == Readable(r) && out == FromInstance(name, r)
  {
    hide Bans, Tagged, Unseen, Ips;
    out := [];
    var bans := Show(r.bans, true);
    ok := bans.Some?;
    if !ok {
      return;
    }
    var seen: set<string>;
    out, seen := AddBans(name, bans.value);
    var points := Show(r.points, false);
    NothingUnseen(name, seen);
    if points.None? {
      return;
    }
    var more := AddPoints(name, points.value, seen);
    out := out + more;
  }

  lemma NothingUnseen(name: string, seen: set<string>)
    ensures Tagged(name, Unseen([], seen)) == []
  {
  }

  /** Manager.Bans: an error only when there are instances and every one failed. */
  method AllBans(names: seq<string>, replies: map<string, Reply>) returns (out: seq<Found>, error: bool)
    requires forall n | n in names :: n in replies
    ensures out == Merged(names, replies)
    ensures error <==> names != [] && forall n | n in names :: !Readable(replies[n])
  {
    hide FromInstance, Readable;
    out := [];
    var failed: seq<string> := [];
    for i := 0 to |names|
      invariant out == Merged(names[..i], replies)
      invariant failed == Failed(names[..i], replies)
    {
      var n := names[i];
      var ok, found := ReadInstance(n, replies[n]);
      assert names[..i + 1] == names[..i] + [n];
      MergedSnoc(names[..i], n, replies);
      out := out + found;
      if !ok {
        failed := failed + [n];
      }
    }
    assert names[..|names|] == names;
    FailedAll(names, replies);
    error := |failed| > 0 && |failed| == |names|;
  }

  lemma {:induction false} FailedAll(names: seq<string>, replies: map<string, Reply>)
    requires forall n | n in names :: n in replies
    ensures |Failed(names, replies)| <= |names|
    ensures |Failed(names, replies)| == |names| <==> forall n | n in names :: !Readable(replies[n])
  {
    hide Readable;
    if names != [] {
      FailedAll(names[1..], replies);
      assert forall n | n in names :: n == names[0] || n in names[1..];
      assert names[0] in names;
      assert forall n | n in names[1..] :: n in names;
    }
  }

  // ------------------------------------------------ what is in the answer

  lemma {:induction false} TaggedHas(name: string, bans: seq<Ban>, f: Found)
    ensures f in Tagged(name, bans) <==> f.inst == name && f.ban in bans
  {
    if bans != [] {
      TaggedHas(name, bans[1..], f);
      assert bans == [bans[0]] + bans[1..];
    }
  }

  lemma {:induction false} UnseenHas(points: seq<Ban>, seen: set<string>, p: Ban)
    ensures p in Unseen(points, seen) <==> p in points && p.ip !in seen
  {
    if points != [] {
      UnseenHas(points[1..], seen, p);
      assert points == [points[0]] + points[1..];
    }
  }

  // A ban, or a point on an address that is not banned.
  predicate Belongs(r: Reply, b: Ban) {
    Readable(r) && (b in BansOf(r) || (b in PointsOf(r) && b.ip !in Ips(BansOf(r))))
  }

  lemma InstanceHas(name: string, r: Reply, f: Found)
    ensures f in FromInstance(name, r) <==> f.inst == name && Belongs(r, f.ban)
  {
    hide Readable, BansOf, PointsOf, Ips;
    TaggedHas(name, BansOf(r), f);
    TaggedHas(name, Unseen(PointsOf(r), Ips(BansOf(r))), f);
    UnseenHas(PointsOf(r), Ips(BansOf(r)), f.ban);
  }

  /** The answer holds every ban and every other point of the readable instances, and nothing else. */
  lemma {:induction false} MergedHas(names: seq<string>, replies: map<string, Reply>, f: Found)
    requires forall n | n in names :: n in replies
    ensures f in Merged(names, replies) <==> f.inst in names && Belongs(replies[f.inst], f.ban)
  {
    hide FromInstance, Belongs;
    if names != [] {
      InstanceHas(names[0], replies[names[0]], f);
      MergedHas(names[1..], replies, f);
      assert f.inst in names <==> f.inst == names[0] || f.inst in names[1..];
    }
  }

  lemma {:induction false} ToBansFlag(rows: seq<RawBan>, banned: bool)
    ensures forall b | b in ToBans(rows, banned) :: b.banned == banned
  {
    if rows != [] {
      ToBansFlag(rows[1..], banned);
    }
  }

  lemma ParsedFlag(out: Option<string>, banned: bool, b: Ban)
    requires Parsed(out, banned).Some? && b in Parsed(out, banned).value
    ensures b.banned == banned
  {
    hide ToBans, Decode, ToRows;
    forall rows: seq<RawBan> ensures forall x | x in ToBans(rows, banned) :: x.banned == banned {
      ToBansFlag(rows, banned);
    }
  }

  /** An address is reported as banned exactly when its instance's ban list has it. */
  lemma BannedIffListed(names: seq<string>, replies: map<string, Reply>, f: Found)
    requires forall n | n in names :: n in replies
    requires f in Merged(names, replies)
    ensures f.inst in replies
    ensures f.ban.banned <==> f.ban.ip in Ips(BansOf(replies[f.inst]))
  {
    hide Merged, Parsed;
    MergedHas(names, replies, f);
    var r := replies[f.inst];
    if f.ban in BansOf(r) {
      ParsedFlag(r.bans, true, f.ban);
    } else {
      ParsedFlag(r.points, false, f.ban);
    }
  }

  // ------------------------------------------------ once each

  function Copies(fs: seq<Found>, name: string, ip: string): nat {
    if fs == [] then 0
    else (if fs[0].inst == name && fs[0].ban.ip == ip then 1 else 0) + Copies(fs[1..], name, ip)
  }

  predicate DistinctIps(bans: seq<Ban>) {
    forall i, j | 0 <= i < j < |bans| :: bans[i].ip != bans[j].ip
  }

  predicate Distinct(names: seq<string>) {
    forall i, j | 0 <= i < j < |names| :: names[i] != names[j]
  }

  lemma {:induction false} CopiesConcat(a: seq<Found>, b: seq<Found>, name: string, ip: string)
    ensures Copies(a + b, name, ip) == Copies(a, name, ip) + Copies(b, name, ip)
  {
    if a == [] {
      assert a + b == b;
    } else {
      assert (a + b)[1..] == a[1..] + b;
      CopiesConcat(a[1..], b, name, ip);
    }
  }

  lemma IpsCons(bans: seq<Ban>)
    requires bans != []
    ensures Ips(bans) == {bans[0].ip} + Ips(bans[1..])
  {
    assert bans == [bans[0]] + bans[1..];
  }

  lemma {:induction false} TaggedOnce(tag: string, bans: seq<Ban>, name: string, ip: string)
    requires DistinctIps(bans)
    ensures Copies(Tagged(tag, bans), name, ip) == Bit(tag == name && ip in Ips(bans))
  {
    if bans != [] {
      TaggedOnce(tag, bans[1..], name, ip);
      IpsCons(bans);
      assert Tagged(tag, bans)[1..] == Tagged(tag, bans[1..]);
      if ip in Ips(bans[1..]) {
        var b :| b in bans[1..] && b.ip == ip;
        var k :| 0 <= k < |bans[1..]| && bans[1..][k] == b;
        assert bans[k + 1].ip == ip;
      }
    }
  }

  lemma {:induction false} UnseenIps(points: seq<Ban>, seen: set<string>)
    ensures Ips(Unseen(points, seen)) == Ips(points) - seen
  {
    hide Ips;
    if points == [] {
      NoIps();
    } else {
      var first, rest := points[0], Unseen(points[1..], seen);
      UnseenIps(points[1..], seen);
      IpsCons(points);
      if first.ip !in seen {
        IpsCons([first] + rest);
        assert ([first] + rest)[1..] == rest;
      } else {
        assert [] + rest == rest;
      }
    }
  }

  lemma NoIps()
    ensures Ips([]) == {}
  {
  }

  lemma {:induction false} UnseenDistinct(points: seq<Ban>, seen: set<string>)
    requires DistinctIps(points)
    ensures DistinctIps(Unseen(points, seen))
  {
    if points != [] {
      var rest := Unseen(points[1..], seen);
      UnseenDistinct(points[1..], seen);
      UnseenIps(points[1..], seen);
      hide Ips, Unseen;
      FreshFirst(points, rest);
    }
  }

  lemma FreshFirst(points: seq<Ban>, rest: seq<Ban>)
    requires points != [] && DistinctIps(points) && DistinctIps(rest) && Ips(rest) <= Ips(points[1..])
    ensures DistinctIps([points[0]] + rest)
    ensures points[0].ip !in Ips(points[1..])
  {
    var all := [points[0]] + rest;
    assert points[0].ip !in Ips(points[1..]);
    forall i, j | 0 <= i < j < |all| ensures all[i].ip != all[j].ip {
      assert all[j] == rest[j - 1];
      assert rest[j - 1].ip in Ips(rest);
    }
  }

  lemma InstanceOnce(tag: string, r: Reply, name: string, ip: string)
    requires DistinctIps(BansOf(r)) && DistinctIps(PointsOf(r))
    ensures Copies(FromInstance(tag, r), name, ip)
         == Bit(tag == name && Readable(r) && ip in Ips(BansOf(r)) + Ips(PointsOf(r)))
  {
    hide Readable, BansOf, PointsOf, Ips, DistinctIps, Tagged, Unseen;
    var seen := Ips(BansOf(r));
    var bans, points := Tagged(tag, BansOf(r)), Tagged(tag, Unseen(PointsOf(r), seen));
    TaggedOnce(tag, BansOf(r), name, ip);
    UnseenDistinct(PointsOf(r), seen);
    UnseenIps(PointsOf(r), seen);
    TaggedOnce(tag, Unseen(PointsOf(r), seen), name, ip);
    CopiesConcat(bans, points, name, ip);
  }

  ghost predicate DistinctReplies(names: seq<string>, replies: map<string, Reply>)
    requires forall n | n in names :: n in replies
  {
    forall n | n in names :: DistinctIps(BansOf(replies[n])) && DistinctIps(PointsOf(replies[n]))
  }

  // The address is in a list of a listed, readable instance.
  predicate Reported(names: seq<string>, replies: map<string, Reply>, name: string, ip: string)
    requires forall n | n in names :: n in replies
  {
    name in names && Readable(replies[name]) && ip in Ips(BansOf(replies[name])) + Ips(PointsOf(replies[name]))
  }

  /** Each (instance, address) of either list of a readable instance appears exactly once, any other never. */
  lemma {:induction false} EachOnce(names: seq<string>, replies: map<string, Reply>, name: string, ip: string)
    requires forall n | n in names :: n in replies
    requires Distinct(names) && DistinctReplies(names, replies)
    ensures Copies(Merged(names, replies), name, ip) == Bit(Reported(names, replies, name, ip))
  {
    hide Readable, BansOf, PointsOf, Ips, DistinctIps, FromInstance;
    if names != [] {
      assert names[0] in names && forall n | n in names[1..] :: n in names;
      InstanceOnce(names[0], replies[names[0]], name, ip);
      EachOnce(names[1..], replies, name, ip);
      CopiesConcat(FromInstance(names[0], replies[names[0]]), Merged(names[1..], replies), name, ip);
      assert name in names <==> name == names[0] || name in names[1..];
      if name in names[1..] {
        var k :| 0 <= k < |names[1..]| && names[1..][k] == name;
        assert names[k + 1] == name && name != names[0];
      }
    }
  }
}
