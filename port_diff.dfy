/** The port diff of updatePodPorts: which declared ports of a new pod template are fresh (to be
    registered), which old ones are dated (to be cancelled), and which are updated (same source port,
    different port otherwise). */
module PortDiff {
  import opened Common
  import opened EngineTypes

  predicate HasSrc(ports: seq<StreamPort>, src: int) {
    exists i :: 0 <= i < |ports| && ports[i].srcPort == src
  }

  /** The old port at which the inner scan stops for a new port with source port `src`: the first
      one that equals the new port or shares its source port (an equal port shares it too). */
  function FirstSameSrc(olds: seq<StreamPort>, src: int): (r: Option<StreamPort>)
    ensures r.None? <==> !HasSrc(olds, src)
    ensures r.Some? ==> r.value in olds && r.value.srcPort == src
    ensures r.Some? ==> exists k :: (0 <= k < |olds| && olds[k] == r.value &&
      forall j :: 0 <= j < k ==> olds[j].srcPort != src)
  {
    if olds == [] then None
    else if olds[0].srcPort == src then Some(olds[0])
    else
      var r := FirstSameSrc(olds[1..], src);
      assert r.Some? ==> exists k :: (0 <= k < |olds| && olds[k] == r.value &&
        forall j :: 0 <= j < k ==> olds[j].srcPort != src) by {
        if r.Some? {
          var k :| 0 <= k < |olds[1..]| && olds[1..][k] == r.value &&
            forall j :: 0 <= j < k ==> olds[1..][j].srcPort != src;
          assert forall j :: 0 <= j < k + 1 ==> olds[j].srcPort != src by {
            forall j | 0 <= j < k + 1 ensures olds[j].srcPort != src {
              if j > 0 { assert olds[j] == olds[1..][j - 1]; }
            }
          }
          assert olds[k + 1] == r.value;
        }
      }
      assert HasSrc(olds[1..], src) ==> HasSrc(olds, src) by {
        if HasSrc(olds[1..], src) {
          var i :| 0 <= i < |olds[1..]| && olds[1..][i].srcPort == src;
          assert olds[i + 1].srcPort == src;
        }
      }
      r
  }

  /** A new port whose scan stops at an old port that differs from it. */
  predicate IsUpdate(olds: seq<StreamPort>, p: StreamPort) {
    match FirstSameSrc(olds, p.srcPort)
    case Some(q) => q != p
    case None => false
  }

  /** freshArr after scanning `news`: new ports with no old port of the same source port. */
  function FreshPorts(olds: seq<StreamPort>, news: seq<StreamPort>): seq<StreamPort> {
    if news == [] then []
    else
      var p := news[|news| - 1];
      FreshPorts(olds, news[..|news| - 1]) + (if FirstSameSrc(olds, p.srcPort).None? then [p] else [])
  }

  /** cap(freshArr) after n appends to `make([]*StreamProc, 0)`: unchanged while there is room,
      otherwise doubled (1 for an empty array), which is how Go's append grows a slice of pointers
      of up to 256 elements. */
  function FreshCap(n: nat): (c: nat)
    ensures n <= c
  {
    if n == 0 then 0
    else
      var c := FreshCap(n - 1);
      if n - 1 < c then c else if c == 0 then 1 else 2 * c
  }

  /** The first scan's variables: freshArr, updateArr, and whether updateArr's last slot is the slot
      of freshArr's backing array just past freshArr's length, so that the next fresh append
      stores into it. */
  datatype NewScan = NewScan(freshArr: seq<StreamPort>, updateArr: seq<StreamPort>, shared: bool)

  /** One new port of the first scan, as written. An updated match REPLACES the update bucket with
      the fresh ports so far plus that port (`updateArr = append(freshArr, ...)`), in freshArr's own
      backing array when it has room. A fresh port is appended to freshArr; when the update bucket
      shares that array, the append overwrites the bucket's last entry (the bucket is then the fresh
      ports so far plus this one). */
  function ScanStep(olds: seq<StreamPort>, st: NewScan, p: StreamPort): NewScan {
    if IsUpdate(olds, p) then NewScan(st.freshArr, st.freshArr + [p], |st.freshArr| < FreshCap(|st.freshArr|))
    else if FirstSameSrc(olds, p.srcPort).None? then
      NewScan(st.freshArr + [p], if st.shared then st.freshArr + [p] else st.updateArr, false)
    else st
  }

  /** The first scan's variables after scanning `news`. */
  function ScanNews(olds: seq<StreamPort>, news: seq<StreamPort>): NewScan {
    if news == [] then NewScan([], [], false)
    else ScanStep(olds, ScanNews(olds, news[..|news| - 1]), news[|news| - 1])
  }

  /** updateArr after scanning `news`, as written. */
  function UpdatedPorts(olds: seq<StreamPort>, news: seq<StreamPort>): seq<StreamPort> {
    ScanNews(olds, news).updateArr
  }

  /** datedArr: old ports with no new port of the same source port. */
  function DatedPorts(olds: seq<StreamPort>, news: seq<StreamPort>): seq<StreamPort> {
    if olds == [] then []
    else
      var q := olds[|olds| - 1];
      DatedPorts(olds[..|olds| - 1], news) + (if HasSrc(news, q.srcPort) then [] else [q])
  }

  /** The fresh bucket holds exactly the new ports whose source port no old port uses. */
  lemma {:induction false} FreshPortsMembers(olds: seq<StreamPort>, news: seq<StreamPort>, p: StreamPort)
    ensures p in FreshPorts(olds, news) <==> p in news && !HasSrc(olds, p.srcPort)
    decreases |news|
  {
    if news != [] {
      var init := news[..|news| - 1];
      FreshPortsMembers(olds, init, p);
      assert news == init + [news[|news| - 1]];
    }
  }

  /** The dated bucket holds exactly the old ports whose source port no new port uses. */
  lemma {:induction false} DatedPortsMembers(olds: seq<StreamPort>, news: seq<StreamPort>, q: StreamPort)
    ensures q in DatedPorts(olds, news) <==> q in olds && !HasSrc(news, q.srcPort)
    decreases |olds|
  {
    if olds != [] {
      var init := olds[..|olds| - 1];
      DatedPortsMembers(init, news, q);
      assert olds == init + [olds[|olds| - 1]];
    }
  }

  /** The scan's freshArr is the fresh bucket; an update bucket that shares freshArr's array is
      freshArr plus one entry, stored where freshArr still has room. */
  lemma {:induction false} ScanNewsShape(olds: seq<StreamPort>, news: seq<StreamPort>)
    ensures ScanNews(olds, news).freshArr == FreshPorts(olds, news)
    ensures ScanNews(olds, news).shared ==>
      |ScanNews(olds, news).updateArr| == |ScanNews(olds, news).freshArr| + 1 &&
      ScanNews(olds, news).updateArr[..|ScanNews(olds, news).freshArr|] == ScanNews(olds, news).freshArr &&
      |ScanNews(olds, news).freshArr| < FreshCap(|ScanNews(olds, news).freshArr|)
    decreases |news|
  {
    if news != [] {
      ScanNewsShape(olds, news[..|news| - 1]);
    }
  }

  /** Everything in the update bucket is a new port that is either fresh or an updated match. */
  lemma {:induction false} UpdatedPortsMembers(olds: seq<StreamPort>, news: seq<StreamPort>, p: StreamPort)
    requires p in UpdatedPorts(olds, news)
    ensures p in news
    ensures !HasSrc(olds, p.srcPort) || IsUpdate(olds, p)
    decreases |news|
  {
    var last, init := news[|news| - 1], news[..|news| - 1];
    assert news == init + [last];
    var st := ScanNews(olds, init);
    ScanNewsShape(olds, init);
    if IsUpdate(olds, last) || (FirstSameSrc(olds, last.srcPort).None? && st.shared) {
      if p != last {
        assert p in st.freshArr;
        FreshPortsMembers(olds, init, p);
      }
    } else {
      UpdatedPortsMembers(olds, init, p);
    }
  }

  /** A new port identical to the old port its scan stops at lands in no bucket. */
  lemma IdenticalPortGoesNowhere(olds: seq<StreamPort>, news: seq<StreamPort>, p: StreamPort)
    requires p in news && FirstSameSrc(olds, p.srcPort) == Some(p)
    ensures p !in FreshPorts(olds, news)
    ensures p !in DatedPorts(olds, news)
    ensures p !in UpdatedPorts(olds, news)
  {
    FreshPortsMembers(olds, news, p);
    DatedPortsMembers(olds, news, p);
    var i :| 0 <= i < |news| && news[i] == p;
    assert HasSrc(news, p.srcPort);
    if p in UpdatedPorts(olds, news) {
      UpdatedPortsMembers(olds, news, p);
    }
  }

  lemma ProcsSnoc(ports: seq<StreamPort>, p: StreamPort, namespace: string, procName: string)
    ensures Procs(ports + [p], namespace, procName) == Procs(ports, namespace, procName) + [StreamProc(p, namespace, procName)]
  {
    assert (ports + [p])[..|ports|] == ports;
  }

  /** Nested scans of updatePodPorts, building the three buckets as registry entries of the group
      (namespace, procName). */
  method DiffPorts(olds: seq<StreamPort>, news: seq<StreamPort>, namespace: string, procName: string)
    returns (freshArr: seq<StreamProc>, datedArr: seq<StreamProc>, updateArr: seq<StreamProc>)
    ensures freshArr == Procs(FreshPorts(olds, news), namespace, procName)
    ensures updateArr == Procs(UpdatedPorts(olds, news), namespace, procName)
    ensures datedArr == Procs(DatedPorts(olds, news), namespace, procName)
  {
    freshArr, updateArr := ScanNewPorts(olds, news, namespace, procName);
    datedArr := ScanOldPorts(olds, news, namespace, procName);
  }

  /** The inner scan for one new port: stop at the first old port that equals it (`found`) or
      shares its source port (`found` and `updated`). */
  method ScanOldFor(olds: seq<StreamPort>, newPort: StreamPort) returns (found: bool, updated: bool)
    ensures found <==> HasSrc(olds, newPort.srcPort)
    ensures updated <==> IsUpdate(olds, newPort)
  {
    found, updated := false, false;
    var j := 0;
    while j < |olds|
      invariant 0 <= j <= |olds|
      invariant FirstSameSrc(olds, newPort.srcPort) == FirstSameSrc(olds[j..], newPort.srcPort)
    {
      var dated := olds[j];
      assert olds[j..][1..] == olds[j + 1..];
      if dated == newPort {
        found := true;
        return;
      } else if dated.srcPort == newPort.srcPort {
        found, updated := true, true;
        return;
      }
      j := j + 1;
    }
  }

  /** First nested scan: each new port against the old ports. `freshCap` is cap(freshArr) and
      `shared` says that updateArr's last slot lies in freshArr's backing array. */
  method ScanNewPorts(olds: seq<StreamPort>, news: seq<StreamPort>, namespace: string, procName: string)
    returns (freshArr: seq<StreamProc>, updateArr: seq<StreamProc>)
    ensures freshArr == Procs(FreshPorts(olds, news), namespace, procName)
    ensures updateArr == Procs(UpdatedPorts(olds, news), namespace, procName)
  {
    freshArr, updateArr := [], [];
    var freshCap, shared := 0, false;
    ghost var st := NewScan([], [], false);
    var i := 0;
    while i < |news|
      invariant 0 <= i <= |news|
      invariant st == ScanNews(olds, news[..i])
      invariant freshArr == Procs(st.freshArr, namespace, procName)
      invariant updateArr == Procs(st.updateArr, namespace, procName)
      invariant shared == st.shared && freshCap == FreshCap(|freshArr|)
    {
      ScanNewsShape(olds, news[..i]);
      freshArr, updateArr, freshCap, shared :=
        ScanNewPort(olds, news[i], namespace, procName, st, freshArr, updateArr, freshCap, shared);
      ScanNewsSnoc(olds, news, i);
      st := ScanStep(olds, st, news[i]);
      i := i + 1;
    }
    assert news[..i] == news;
    ScanNewsShape(olds, news);
  }

  /** The scan state grows by one ScanStep per new port. */
  lemma ScanNewsSnoc(olds: seq<StreamPort>, news: seq<StreamPort>, i: nat)
    requires i < |news|
    ensures ScanNews(olds, news[..i + 1]) == ScanStep(olds, ScanNews(olds, news[..i]), news[i])
  {
    assert news[..i + 1][..i] == news[..i];
  }

  /** One step of the first nested scan: the slices after looking at `newPort`, given the slices
      that `st` describes. */
  method ScanNewPort(olds: seq<StreamPort>, newPort: StreamPort, namespace: string, procName: string, ghost st: NewScan,
                     freshArr: seq<StreamProc>, updateArr: seq<StreamProc>, freshCap: nat, shared: bool)
    returns (freshArr': seq<StreamProc>, updateArr': seq<StreamProc>, freshCap': nat, shared': bool)
    requires freshArr == Procs(st.freshArr, namespace, procName)
    requires updateArr == Procs(st.updateArr, namespace, procName)
    requires shared == st.shared && freshCap == FreshCap(|freshArr|)
    requires st.shared ==> |st.updateArr| == |st.freshArr| + 1 && st.updateArr[..|st.freshArr|] == st.freshArr
    ensures freshArr' == Procs(ScanStep(olds, st, newPort).freshArr, namespace, procName)
    ensures updateArr' == Procs(ScanStep(olds, st, newPort).updateArr, namespace, procName)
    ensures shared' == ScanStep(olds, st, newPort).shared && freshCap' == FreshCap(|freshArr'|)
  {
    freshArr', updateArr', freshCap', shared' := freshArr, updateArr, freshCap, shared;
    var found, updated := ScanOldFor(olds, newPort);
    var proc := StreamProc(newPort, namespace, procName);
    ProcsSnoc(st.freshArr, newPort, namespace, procName);
    if updated {
      updateArr' := freshArr + [proc];
      shared' := |freshArr| < freshCap;
    }
    if !found {
      if shared' {
        // the append below stores into the slot updateArr ends with
        updateArr' := updateArr'[..|freshArr|] + [proc];
        shared' := false;
      }
      if |freshArr| == freshCap {
        freshCap' := if freshCap == 0 then 1 else 2 * freshCap;
      }
      freshArr' := freshArr + [proc];
    }
  }

  /** The inner scan for one old port: stop at the first new port with the same source port. */
  method ScanNewFor(news: seq<StreamPort>, dated: StreamPort) returns (found: bool)
    ensures found <==> HasSrc(news, dated.srcPort)
  {
    found := false;
    var j := 0;
    while j < |news|
      invariant 0 <= j <= |news|
      invariant forall m :: 0 <= m < j ==> news[m].srcPort != dated.srcPort
    {
      if dated.srcPort == news[j].srcPort {
        found := true;
        return;
      }
      j := j + 1;
    }
  }

  /** Second nested scan: each old port against the new ports. */
  method ScanOldPorts(olds: seq<StreamPort>, news: seq<StreamPort>, namespace: string, procName: string)
    returns (datedArr: seq<StreamProc>)
    ensures datedArr == Procs(DatedPorts(olds, news), namespace, procName)
  {
    datedArr := [];
    var k := 0;
    while k < |olds|
      invariant 0 <= k <= |olds|
      invariant datedArr == Procs(DatedPorts(olds[..k], news), namespace, procName)
    {
      var dated := olds[k];
      var found := ScanNewFor(news, dated);
      assert olds[..k + 1] == olds[..k] + [dated];
      ProcsSnoc(DatedPorts(olds[..k], news), dated, namespace, procName);
      if !found {
        datedArr := datedArr + [StreamProc(dated, namespace, procName)];
      }
      k := k + 1;
    }
    assert olds[..k] == olds;
  }

  /** The update bucket the code evidently means: every new port whose scan stops at a different old
      port, and nothing else. */
  function IntendedUpdatedPorts(olds: seq<StreamPort>, news: seq<StreamPort>): seq<StreamPort> {
    if news == [] then []
    else
      var p := news[|news| - 1];
      IntendedUpdatedPorts(olds, news[..|news| - 1]) + (if IsUpdate(olds, p) then [p] else [])
  }

  /** With the intended bucket every new port lands in exactly one place: fresh, updated, or
      nowhere because an identical old port is found first; no port is both registered and updated. */
  lemma {:induction false} IntendedBucketsPartition(olds: seq<StreamPort>, news: seq<StreamPort>, p: StreamPort)
    ensures p in IntendedUpdatedPorts(olds, news) <==> p in news && IsUpdate(olds, p)
    ensures p in news ==>
      (p in FreshPorts(olds, news) && p !in IntendedUpdatedPorts(olds, news)) ||
      (p !in FreshPorts(olds, news) && p in IntendedUpdatedPorts(olds, news)) ||
      (p !in FreshPorts(olds, news) && p !in IntendedUpdatedPorts(olds, news) && FirstSameSrc(olds, p.srcPort) == Some(p))
    decreases |news|
  {
    FreshPortsMembers(olds, news, p);
    if news != [] {
      var init := news[..|news| - 1];
      IntendedBucketsPartition(olds, init, p);
      assert news == init + [news[|news| - 1]];
    }
  }

  /** As written, a fresh port that precedes an updated one is also put in the update bucket, and
      an earlier updated port is dropped from it. */
  lemma UpdateBucketQuirk()
    ensures var a80, c90 := StreamPort(80, 8080, "tcp"), StreamPort(90, 9090, "tcp");
      var b81, a80', c90' := StreamPort(81, 8181, "tcp"), StreamPort(80, 8000, "tcp"), StreamPort(90, 9000, "tcp");
      && UpdatedPorts([a80, c90], [b81, a80', c90']) == [b81, c90']
      && FreshPorts([a80, c90], [b81, a80', c90']) == [b81]
      && IntendedUpdatedPorts([a80, c90], [b81, a80', c90']) == [a80', c90']
  {
    var a80, c90 := StreamPort(80, 8080, "tcp"), StreamPort(90, 9090, "tcp");
    var b81, a80', c90' := StreamPort(81, 8181, "tcp"), StreamPort(80, 8000, "tcp"), StreamPort(90, 9000, "tcp");
    var olds, news := [a80, c90], [b81, a80', c90'];
    assert olds[1..] == [c90];
    assert [c90][1..] == [];
    assert FirstSameSrc(olds, 81) == None;
    assert FirstSameSrc(olds, 80) == Some(a80);
    assert FirstSameSrc(olds, 90) == Some(c90);
    assert news[..2] == [b81, a80'];
    assert news[..2][..1] == [b81];
    assert [b81][..0] == [];
    assert FreshPorts(olds, [b81]) == [b81];
    assert FreshPorts(olds, [b81, a80']) == [b81];
    assert FreshCap(1) == 1;
    assert ScanNews(olds, [b81]) == NewScan([b81], [], false);
    assert ScanNews(olds, [b81, a80']) == NewScan([b81], [b81, a80'], false);
    assert IntendedUpdatedPorts(olds, [b81]) == [];
    assert IntendedUpdatedPorts(olds, [b81, a80']) == [a80'];
  }

  /** As written, an updated port seen while freshArr has room is overwritten by the next fresh port:
      old port 80 against new ports 81, 82, 83, 80' and 84 sends [81, 82, 83, 84] to UpdatePorts,
      and the change of port 80 is never sent. */
  lemma UpdateOverwrittenByFresh()
    ensures var a80 := StreamPort(80, 8080, "tcp");
      var b81, b82, b83, a80', b84 :=
        StreamPort(81, 8181, "tcp"), StreamPort(82, 8282, "tcp"), StreamPort(83, 8383, "tcp"),
        StreamPort(80, 8000, "tcp"), StreamPort(84, 8484, "tcp");
      && UpdatedPorts([a80], [b81, b82, b83, a80', b84]) == [b81, b82, b83, b84]
      && a80' !in UpdatedPorts([a80], [b81, b82, b83, a80', b84])
      && IntendedUpdatedPorts([a80], [b81, b82, b83, a80', b84]) == [a80']
  {
    var a80 := StreamPort(80, 8080, "tcp");
    var b81, b82, b83, a80', b84 :=
      StreamPort(81, 8181, "tcp"), StreamPort(82, 8282, "tcp"), StreamPort(83, 8383, "tcp"),
      StreamPort(80, 8000, "tcp"), StreamPort(84, 8484, "tcp");
    var olds, news := [a80], [b81, b82, b83, a80', b84];
    OverwriteSearches();
    OverwriteScanPrefix();
    OverwriteIntendedPrefix();
    assert news[..4] == [b81, b82, b83, a80'];
  }

  /** What the old-port search finds for each new port of UpdateOverwrittenByFresh. */
  lemma OverwriteSearches()
    ensures var a80 := StreamPort(80, 8080, "tcp");
      && FirstSameSrc([a80], 81) == None && FirstSameSrc([a80], 82) == None
      && FirstSameSrc([a80], 83) == None && FirstSameSrc([a80], 84) == None
      && FirstSameSrc([a80], 80) == Some(a80)
  {
  }

  /** The scan state of UpdateOverwrittenByFresh just before the last fresh port: freshArr has
      three ports and capacity four, and updateArr shares its backing array. */
  lemma OverwriteScanPrefix()
    ensures var a80 := StreamPort(80, 8080, "tcp");
      var b81, b82, b83, a80' :=
        StreamPort(81, 8181, "tcp"), StreamPort(82, 8282, "tcp"), StreamPort(83, 8383, "tcp"),
        StreamPort(80, 8000, "tcp");
      ScanNews([a80], [b81, b82, b83, a80']) == NewScan([b81, b82, b83], [b81, b82, b83, a80'], true)
  {
    var a80 := StreamPort(80, 8080, "tcp");
    var b81, b82, b83, a80' :=
      StreamPort(81, 8181, "tcp"), StreamPort(82, 8282, "tcp"), StreamPort(83, 8383, "tcp"),
      StreamPort(80, 8000, "tcp");
    var olds := [a80];
    OverwriteSearches();
    assert [b81, b82, b83, a80'][..3] == [b81, b82, b83];
    assert [b81, b82, b83][..2] == [b81, b82];
    assert [b81, b82][..1] == [b81];
    assert [b81][..0] == [];
    assert FreshCap(3) == 4;
    assert ScanNews(olds, [b81]) == NewScan([b81], [], false);
    assert ScanNews(olds, [b81, b82]) == NewScan([b81, b82], [], false);
    assert ScanNews(olds, [b81, b82, b83]) == NewScan([b81, b82, b83], [], false);
  }

  /** The intended update bucket of UpdateOverwrittenByFresh just before the last fresh port. */
  lemma OverwriteIntendedPrefix()
    ensures var a80 := StreamPort(80, 8080, "tcp");
      var b81, b82, b83, a80' :=
        StreamPort(81, 8181, "tcp"), StreamPort(82, 8282, "tcp"), StreamPort(83, 8383, "tcp"),
        StreamPort(80, 8000, "tcp");
      IntendedUpdatedPorts([a80], [b81, b82, b83, a80']) == [a80']
  {
    var a80 := StreamPort(80, 8080, "tcp");
    var b81, b82, b83, a80' :=
      StreamPort(81, 8181, "tcp"), StreamPort(82, 8282, "tcp"), StreamPort(83, 8383, "tcp"),
      StreamPort(80, 8000, "tcp");
    var olds := [a80];
    OverwriteSearches();
    assert [b81, b82, b83, a80'][..3] == [b81, b82, b83];
    assert [b81, b82, b83][..2] == [b81, b82];
    assert [b81, b82][..1] == [b81];
    assert [b81][..0] == [];
    assert IntendedUpdatedPorts(olds, [b81]) == [];
    assert IntendedUpdatedPorts(olds, [b81, b82]) == [];
    assert IntendedUpdatedPorts(olds, [b81, b82, b83]) == [];
  }
}
