/** Windows onto long lists: LRANGE and ZRANGE samples of the Redis connector, pages of SNMP devices. */
module Windows {
  import opened Wrappers
  import opened Sorting

  const MAX_INT64: int := 0x7FFF_FFFF_FFFF_FFFF

  type Int64 = x: int | -MAX_INT64 - 1 <= x <= MAX_INT64

  /** Go's int64 and int arithmetic wraps around. */
  function Wrap(x: int): Int64
  {
    (x + MAX_INT64 + 1) % (2 * MAX_INT64 + 2) - MAX_INT64 - 1
  }

  lemma WrapOnce(x: int)
    requires -MAX_INT64 - 1 <= x <= 2 * MAX_INT64
    ensures Wrap(x) == if x <= MAX_INT64 then x else x - 2 * MAX_INT64 - 2
  {
  }

  // ---------- LRANGE ----------

  /** The server's LRANGE: both ends inclusive, negative positions count from the end. */
  function ServerRange<T>(list: seq<T>, start: int, stop: int): seq<T>
  {
    var n := |list|;
    var from0 := if start < 0 then n + start else start;
    var s := if from0 < 0 then 0 else from0;
    var e := if stop < 0 then n + stop else stop;
    if s > e || s >= n then []
    else list[s..if e >= n then n else e + 1]
  }

  datatype Sample<T> = Sample(values: seq<T>, truncated: bool)

  /** LRange asks for one element more than the limit, to see whether there are more. */
  function LRange<T>(list: seq<T>, start: Int64, limit: Int64): (r: Sample<T>)
    requires limit > 0
    ensures |r.values| <= limit && (r.truncated ==> |r.values| == limit)
  {
    Capped(ServerRange(list, start, Wrap(start + limit)), limit)
  }

  function Capped<T>(values: seq<T>, limit: nat): Sample<T>
  {
    if |values| > limit then Sample(values[..limit], true) else Sample(values, false)
  }

  lemma LRangeUnwrapped<T>(list: seq<T>, start: Int64, limit: Int64)
    requires limit > 0 && start + limit <= MAX_INT64
    ensures LRange(list, start, limit) == Capped(ServerRange(list, start, start + limit), limit)
  {
    WrapOnce(start + limit);
  }

  /** The position a start stands for. */
  function Position(n: nat, start: int): nat
  {
    if start >= 0 then start else if n + start >= 0 then n + start else 0
  }

  /** The window of `limit` elements from position `s`, and whether the list goes on after it. */
  function Window<T>(list: seq<T>, s: nat, limit: nat): Sample<T>
  {
    var n := |list|;
    Sample(if s >= n then [] else if s + limit > n then list[s..] else list[s..s + limit], n > s + limit)
  }

  /**
   * The starts for which LRange is right. Non-negative ones are, unless the stop overflows inside the
   * list; negative ones are when the stop stays negative, or passes zero and still covers the whole list.
   */
  predicate WindowIsRight(n: nat, start: Int64, limit: Int64)
  {
    || n == 0
    || (start >= 0 && (start >= n || start + limit <= MAX_INT64))
    || (start < 0 && start + limit >= n - 1)
    || (start < 0 && start + limit < 0 && (n + start >= 0 || start + limit == -1))
  }

  /** LRange returns the window of its start and marks truncation correctly exactly for those starts. */
  lemma LRangeIsWindowExactly<T>(list: seq<T>, start: Int64, limit: Int64)
    requires limit > 0 && |list| <= MAX_INT64
    ensures LRange(list, start, limit) == Window(list, Position(|list|, start), limit)
       <==> WindowIsRight(|list|, start, limit)
  {
    WrapOnce(start + limit);
    if start >= 0 {
      RightForward(list, start, limit);
    } else {
      RightBackward(list, start, limit);
    }
  }

  /** Reading two elements from the last one on: the stop counts from the front and nothing is returned. */
  lemma LRangeCanMiss()
    ensures var list := ['a', 'b', 'c', 'd'];
            LRange(list, -1, 2) == Sample([], false) && Window(list, Position(|list|, -1), 2) == Sample(['d'], false)
  {
    LRangeUnwrapped(['a', 'b', 'c', 'd'], -1, 2);
  }

  lemma RightForward<T>(list: seq<T>, start: Int64, limit: Int64)
    requires 0 < limit && 0 <= start && |list| <= MAX_INT64
    ensures LRange(list, start, limit) == Window(list, start, limit) <==> WindowIsRight(|list|, start, limit)
  {
    WrapOnce(start + limit);
    var n := |list|;
    if start < n && start + limit <= MAX_INT64 {
      var values := ServerRange(list, start, start + limit);
      if start + limit < n {
        assert values == list[start..start + limit + 1];
        assert values[..limit] == list[start..start + limit];
      } else {
        assert values == list[start..];
      }
    } else if start < n {
      assert ServerRange(list, start, Wrap(start + limit)) == [];
      assert |Window(list, start, limit).values| > 0;
    }
  }

  lemma RightBackward<T>(list: seq<T>, start: Int64, limit: Int64)
    requires 0 < limit && start < 0 && |list| <= MAX_INT64
    ensures LRange(list, start, limit) == Window(list, Position(|list|, start), limit)
       <==> WindowIsRight(|list|, start, limit)
  {
    if start + limit >= 0 {
      RightAcrossZero(list, start, limit);
    } else if |list| + start >= 0 {
      RightInside(list, start, limit);
    } else {
      RightBeforeList(list, start, limit);
    }
  }

  /** A stop past zero is a position from the front: everything from the start on, or too little. */
  lemma RightAcrossZero<T>(list: seq<T>, start: Int64, limit: Int64)
    requires 0 < limit && start < 0 <= start + limit && |list| <= MAX_INT64
    ensures LRange(list, start, limit) == Window(list, Position(|list|, start), limit)
       <==> |list| == 0 || start + limit >= |list| - 1
  {
    LRangeUnwrapped(list, start, limit);
    var n, stop := |list|, start + limit;
    var s, values := Position(n, start), ServerRange(list, start, stop);
    if stop >= n - 1 {
      assert values == list[s..];
    } else {
      assert |values| < n - s && n <= s + limit;
    }
  }

  lemma RightInside<T>(list: seq<T>, start: Int64, limit: Int64)
    requires 0 < limit && start < 0 && start + limit < 0 <= |list| + start && |list| <= MAX_INT64
    ensures LRange(list, start, limit) == Window(list, Position(|list|, start), limit)
  {
    LRangeUnwrapped(list, start, limit);
    var s, values := |list| + start, ServerRange(list, start, start + limit);
    assert values == list[s..s + limit + 1];
    assert values[..limit] == list[s..s + limit];
  }

  lemma RightBeforeList<T>(list: seq<T>, start: Int64, limit: Int64)
    requires 0 < limit && |list| + start < 0 && start + limit < 0 && |list| <= MAX_INT64
    ensures LRange(list, start, limit) == Window(list, 0, limit) <==> |list| == 0 || start + limit == -1
  {
    LRangeUnwrapped(list, start, limit);
    var n, stop := |list|, start + limit;
    var values := ServerRange(list, start, stop);
    assert |values| == if n + stop < 0 then 0 else n + stop + 1;
    assert stop == -1 ==> values == list[..n] == list;
  }

  /** Reading on from where a truncated sample ends. */
  function ReadAll<T>(list: seq<T>, start: Int64, limit: Int64): seq<T>
    requires 0 <= start && 0 < limit && |list| + limit <= MAX_INT64
    decreases if start < |list| then |list| - start else 0
  {
    var r := LRange(list, start, limit);
    if r.truncated then
      LRangeIsWindowExactly(list, start, limit);
      r.values + ReadAll(list, start + |r.values|, limit)
    else r.values
  }

  /** Samples tile the list: advancing by the count while truncated rebuilds everything from the start. */
  lemma {:induction false} SamplesTile<T>(list: seq<T>, start: Int64, limit: Int64)
    requires 0 <= start && 0 < limit && |list| + limit <= MAX_INT64
    ensures ReadAll(list, start, limit) == if start <= |list| then list[start..] else []
    decreases if start < |list| then |list| - start else 0
  {
    LRangeIsWindowExactly(list, start, limit);
    var w := Window(list, start, limit);
    assert LRange(list, start, limit) == w;
    if w.truncated {
      SamplesTile(list, start + limit, limit);
      assert list[start..] == w.values + list[start + limit..];
      assert |w.values| == limit;
      assert ReadAll(list, start, limit) == w.values + ReadAll(list, start + limit, limit);
    } else {
      assert ReadAll(list, start, limit) == w.values;
    }
  }

  /** ZRangeSample: the first members of a sorted set with their scores. */
  method ZRangeSample(zset: seq<(string, real)>, limit: Int64) returns (r: Sample<(string, real)>)
    requires limit > 0 && |zset| <= MAX_INT64
    ensures r == Window(zset, 0, limit)
  {
    var zs := ServerRange(zset, 0, limit);
    var truncated := |zs| > limit;
    if truncated {
      zs := zs[..limit];
    }
    var members := [];
    for i := 0 to |zs|
      invariant members == zs[..i]
    {
      members := members + [(zs[i].0, zs[i].1)];
    }
    r := Sample(members, truncated);
  }

  // ---------- Pages of SNMP devices ----------

  type Labels = map<string, string>

  const DEFAULT_LIST_LIMIT := 100

  /** A missing label reads as the empty string. */
  function LabelOf(have: Labels, k: string): string
  {
    if k in have then have[k] else ""
  }

  /** labelsMatch */
  predicate LabelsMatch(have: Labels, want: Labels)
  {
    forall k | k in want :: LabelOf(have, k) == want[k]
  }

  /** The sorted names of the devices that match; there is only one such list. */
  ghost predicate IsMatchList(devices: map<string, Labels>, want: Labels, names: seq<string>)
  {
    IsSorted(names) && forall n :: n in names <==> n in devices && LabelsMatch(devices[n], want)
  }

  /** A list names a device exactly when it has every wanted label with the wanted value; no value is the empty one. */
  lemma MatchListMeans(devices: map<string, Labels>, want: Labels, names: seq<string>, n: string)
    requires IsMatchList(devices, want, names)
    ensures n in names <==>
              && n in devices
              && forall k | k in want :: if k in devices[n] then devices[n][k] == want[k] else want[k] == ""
  {
  }

  /** The page of a list; Err stands for the slice bounds panic. */
  function PageOf<T>(all: seq<T>, limit: Int64, offset: Int64): Result<seq<T>>
  {
    var size := if limit <= 0 then DEFAULT_LIST_LIMIT else limit;
    var from0 := if offset < 0 then 0 else offset;
    if from0 >= |all| then Ok([])
    else
      var stop := Wrap(from0 + size);
      var end := if stop > |all| then |all| else stop;
      if end < from0 then Err else Ok(all[from0..end])
  }

  /** What one call answers: the page of the matching devices in order. */
  ghost predicate IsDevicePage(devices: map<string, Labels>, want: Labels, limit: Int64, offset: Int64, r: Result<seq<string>>)
  {
    exists names :: IsMatchList(devices, want, names) && r == PageOf(names, limit, offset)
  }

  /** The filtering loop: the devices that match, in map order. */
  method MatchingNames(devices: map<string, Labels>, want: Labels) returns (out: seq<string>)
    ensures forall n :: n in out <==> n in devices && LabelsMatch(devices[n], want)
    ensures forall i, j | 0 <= i < j < |out| :: out[i] != out[j]
  {
    out := [];
    var pending := devices.Keys;
    while pending != {}
      invariant pending <= devices.Keys
      invariant forall n :: n in out <==> n in devices && n !in pending && LabelsMatch(devices[n], want)
      invariant forall i, j | 0 <= i < j < |out| :: out[i] != out[j]
      decreases |pending|
    {
      var n :| n in pending;
      assert n !in out;
      pending := pending - {n};
      if LabelsMatch(devices[n], want) {
        out := out + [n];
      }
    }
  }

  /** ListSNMPDeviceSummaries: filters in map order, sorts, cuts out the page. */
  method ListDevices(devices: map<string, Labels>, want: Labels, limit: Int64, offset: Int64)
    returns (r: Result<seq<string>>)
    requires |devices| <= MAX_INT64
    ensures IsDevicePage(devices, want, limit, offset, r)
  {
    var out := MatchingNames(devices, want);
    SortSorts(out);
    var sorted := Sort(out);
    assert IsMatchList(devices, want, sorted);
    var size := if limit <= 0 then DEFAULT_LIST_LIMIT else limit;
    var from0 := if offset < 0 then 0 else offset;
    if from0 >= |sorted| {
      return Ok([]);
    }
    var end := Wrap(from0 + size);
    if end > |sorted| {
      end := |sorted|;
    }
    if end < from0 {
      return Err;
    }
    return Ok(sorted[from0..end]);
  }

  /** Whatever order the map was visited in, the same devices are listed in the same order. */
  lemma MatchListIsUnique(devices: map<string, Labels>, want: Labels, a: seq<string>, b: seq<string>)
    requires IsMatchList(devices, want, a) && IsMatchList(devices, want, b)
    ensures a == b
  {
    SortedIsUnique(a, b);
  }

  /** A page inside the list is cut out without a panic exactly when its end does not overflow. */
  lemma PagePanicsExactly<T>(all: seq<T>, limit: Int64, offset: Int64)
    requires |all| <= MAX_INT64
    ensures var size := if limit <= 0 then DEFAULT_LIST_LIMIT else limit;
            var from0 := if offset < 0 then 0 else offset;
            PageOf(all, limit, offset).Ok? <==> from0 >= |all| || from0 + size <= MAX_INT64
  {
    WrapOnce((if offset < 0 then 0 else offset) + if limit <= 0 then DEFAULT_LIST_LIMIT else limit);
  }

  /** The largest limit from the second of two devices on: the end wraps around and the slice panics. */
  lemma PageCanPanic()
    ensures PageOf(["a", "b"], MAX_INT64, 1).Err?
  {
    PagePanicsExactly(["a", "b"], MAX_INT64, 1);
  }

  /** Without a positive limit a page has a hundred entries, and a negative offset is none. */
  lemma PageDefaults<T>(all: seq<T>, limit: Int64, offset: Int64)
    ensures limit <= 0 ==> PageOf(all, limit, offset) == PageOf(all, 100, offset)
    ensures offset < 0 ==> PageOf(all, limit, offset) == PageOf(all, limit, 0)
  {
  }

  /** The pages at offset, offset + limit, and so on, put together. */
  function Pages<T>(all: seq<T>, limit: Int64, offset: Int64): Result<seq<T>>
    requires 0 < limit && 0 <= offset && |all| + limit <= MAX_INT64
    decreases if offset < |all| then |all| - offset else 0
  {
    match PageOf(all, limit, offset)
    case Err => Err
    case Ok(page) =>
      if offset >= |all| then Ok(page)
      else
        match Pages(all, limit, offset + limit)
        case Err => Err
        case Ok(rest) => Ok(page + rest)
  }

  /** Pages tile the list. */
  lemma {:induction false} PagesTile<T>(all: seq<T>, limit: Int64, offset: Int64)
    requires 0 < limit && 0 <= offset && |all| + limit <= MAX_INT64
    ensures Pages(all, limit, offset) == Ok(if offset <= |all| then all[offset..] else [])
    decreases if offset < |all| then |all| - offset else 0
  {
    PagePanicsExactly(all, limit, offset);
    WrapOnce(offset + limit);
    if offset < |all| {
      PagesTile(all, limit, offset + limit);
      var end := if offset + limit > |all| then |all| else offset + limit;
      assert all[offset..] == all[offset..end] + all[end..];
    } else {
      assert PageOf(all, limit, offset) == Ok([]);
      assert offset == |all| ==> all[offset..] == [];
    }
  }

  /** The names from an offset on. */
  function From<T>(all: seq<T>, offset: nat): seq<T>
  {
    if offset <= |all| then all[offset..] else []
  }

  function OnePage<T>(all: seq<T>, limit: nat, offset: nat): seq<T>
  {
    if offset >= |all| then [] else if offset + limit > |all| then all[offset..] else all[offset..offset + limit]
  }

  lemma PageOfIsOnePage<T>(all: seq<T>, limit: Int64, offset: Int64)
    requires 0 < limit && 0 <= offset && |all| + limit <= MAX_INT64
    ensures PageOf(all, limit, offset) == Ok(OnePage(all, limit, offset))
  {
    if offset < |all| {
      WrapOnce(offset + limit);
      assert all[offset..] == all[offset..|all|];
    }
  }

  lemma PageThenRest<T>(all: seq<T>, limit: nat, offset: nat, rest: seq<T>)
    requires limit > 0 && rest <= From(all, offset + limit)
    ensures OnePage(all, limit, offset) + rest <= From(all, offset)
    ensures |OnePage(all, limit, offset)| < limit || rest == From(all, offset + limit) ==>
              OnePage(all, limit, offset) + rest == From(all, offset)
  {
    if offset + limit <= |all| {
      assert all[offset..] == all[offset..offset + limit] + all[offset + limit..];
    }
  }

  /** The pages at offset, offset + limit, and so on. */
  predicate AreOnePages<T(==)>(all: seq<T>, limit: nat, offset: nat, pages: seq<seq<T>>)
    decreases |pages|
  {
    pages == [] || (pages[0] == OnePage(all, limit, offset) && AreOnePages(all, limit, offset + limit, pages[1..]))
  }

  function Entries<T>(pages: seq<seq<T>>): seq<T>
  {
    if pages == [] then [] else pages[0] + Entries(pages[1..])
  }

  predicate HasShortPage<T>(pages: seq<seq<T>>, limit: nat)
  {
    pages != [] && (|pages[0]| < limit || HasShortPage(pages[1..], limit))
  }

  lemma {:induction false} OnePagesTile<T>(all: seq<T>, limit: nat, offset: nat, pages: seq<seq<T>>)
    requires limit > 0 && AreOnePages(all, limit, offset, pages)
    ensures Entries(pages) <= From(all, offset)
    ensures HasShortPage(pages, limit) ==> Entries(pages) == From(all, offset)
    decreases |pages|
  {
    if pages != [] {
      OnePagesTile(all, limit, offset + limit, pages[1..]);
      PageThenRest(all, limit, offset, Entries(pages[1..]));
    }
  }

  /** Answers of successive calls at offset, offset + limit, and so on, each under its own map order. */
  ghost predicate AreDevicePages(devices: map<string, Labels>, want: Labels, limit: Int64, offset: int, rs: seq<Result<seq<string>>>)
    decreases |rs|
  {
    rs == [] || (&& 0 <= offset <= MAX_INT64
                 && IsDevicePage(devices, want, limit, offset, rs[0])
                 && AreDevicePages(devices, want, limit, offset + limit, rs[1..]))
  }

  /** Whatever the map order of a call, its page is that of the one sorted list. */
  lemma DevicePage(devices: map<string, Labels>, want: Labels, limit: Int64, offset: Int64, r: Result<seq<string>>, names: seq<string>)
    requires 0 < limit && 0 <= offset && IsDevicePage(devices, want, limit, offset, r)
    requires IsMatchList(devices, want, names) && |names| + limit <= MAX_INT64
    ensures r == Ok(OnePage(names, limit, offset))
  {
    var all :| IsMatchList(devices, want, all) && r == PageOf(all, limit, offset);
    MatchListIsUnique(devices, want, names, all);
    PageOfIsOnePage(names, limit, offset);
  }

  lemma {:induction false} DevicePagesSucceed(devices: map<string, Labels>, want: Labels, limit: Int64, offset: int,
                                              rs: seq<Result<seq<string>>>, names: seq<string>)
    returns (pages: seq<seq<string>>)
    requires 0 < limit && 0 <= offset && AreDevicePages(devices, want, limit, offset, rs)
    requires IsMatchList(devices, want, names) && |names| + limit <= MAX_INT64
    ensures |pages| == |rs| && forall i | 0 <= i < |rs| :: rs[i] == Ok(pages[i])
    ensures AreOnePages(names, limit, offset, pages)
    decreases |rs|
  {
    if rs == [] {
      pages := [];
    } else {
      DevicePage(devices, want, limit, offset, rs[0], names);
      var rest := DevicePagesSucceed(devices, want, limit, offset + limit, rs[1..], names);
      pages := [rs[0].value] + rest;
      assert pages[1..] == rest;
    }
  }

  /**
   * Successive calls tile the matching devices whatever the map order of each: no call fails, the pages
   * continue the sorted list from the first offset on, and with a page that is not full they have reached
   * its end.
   */
  lemma DevicePagesTile(devices: map<string, Labels>, want: Labels, limit: Int64, offset: int,
                        rs: seq<Result<seq<string>>>, names: seq<string>)
    returns (pages: seq<seq<string>>)
    requires 0 < limit && 0 <= offset && AreDevicePages(devices, want, limit, offset, rs)
    requires IsMatchList(devices, want, names) && |names| + limit <= MAX_INT64
    ensures |pages| == |rs| && forall i | 0 <= i < |rs| :: rs[i] == Ok(pages[i])
    ensures Entries(pages) <= From(names, offset)
    ensures HasShortPage(pages, limit) ==> Entries(pages) == From(names, offset)
  {
    pages := DevicePagesSucceed(devices, want, limit, offset, rs, names);
    OnePagesTile(names, limit, offset, pages);
  }
}
