/** The two-sample debounce filter and the change notifier that run once at
    the end of every read phase. */
module Debounce {
  import opened Bits

  /** One call of the registered change handler: `(switch_index, off_on)`. */
  datatype Notification = Notification(index: nat, level: Bit)

  /** The buffers a debounce pass leaves behind and the handler calls it made. */
  datatype PassResult = PassResult(former: seq<Bit>, status: seq<Bit>, fired: seq<Notification>)

  /** Three buffers of one scanner: all of the same length. */
  predicate SameLength(scan: seq<Bit>, former: seq<Bit>, status: seq<Bit>)
  {
    |former| == |scan| && |status| == |scan|
  }

  /** The notifications are in strictly ascending index order. */
  predicate Ascending(fired: seq<Notification>)
  {
    forall j1, j2 :: 0 <= j1 < j2 < |fired| ==> fired[j1].index < fired[j2].index
  }

  /** Whether some notification in `fired` names switch `k`. */
  predicate Notified(fired: seq<Notification>, k: nat)
  {
    exists j :: 0 <= j < |fired| && fired[j].index == k
  }

  /** The status each switch must have after a pass: the current sample when
      it agrees with the previous one, the old status otherwise. */
  predicate Debounced(scan: seq<Bit>, former: seq<Bit>, status: seq<Bit>, status': seq<Bit>, from: nat)
    requires SameLength(scan, former, status) && |status'| == |scan|
  {
    && (forall k :: 0 <= k < from && k < |scan| ==> status'[k] == status[k])
    && (forall k :: from <= k < |scan| && scan[k] == former[k] ==> status'[k] == scan[k])
    && (forall k :: from <= k < |scan| && scan[k] != former[k] ==> status'[k] == status[k])
  }

  /** Every notification names a switch at or above `from` whose status
      changed, and carries the inverted new status. */
  predicate NotifiesChanges(status: seq<Bit>, status': seq<Bit>, fired: seq<Notification>, from: nat)
    requires |status'| == |status|
  {
    forall j :: 0 <= j < |fired| ==>
      from <= fired[j].index < |status| &&
      status'[fired[j].index] != status[fired[j].index] &&
      fired[j].level == Invert(status'[fired[j].index])
  }

  /** Every switch at or above `from` whose status changed is notified. */
  predicate NotifiesEveryChange(status: seq<Bit>, status': seq<Bit>, fired: seq<Notification>, from: nat)
    requires |status'| == |status|
  {
    forall k :: from <= k < |status| && status'[k] != status[k] ==> Notified(fired, k)
  }

  /** The loop of the debounce pass, from index `from` up: a switch whose two
      latest samples agree takes the sample as its status; a switch whose
      status changes notifies the handler, if one is set, with the inverted
      level; every previous sample is replaced by the current one. */
  function PassFrom(scan: seq<Bit>, former: seq<Bit>, status: seq<Bit>, handler: bool, from: nat): (r: PassResult)
    requires SameLength(scan, former, status) && from <= |scan|
    ensures SameLength(scan, r.former, r.status)
    ensures forall k :: 0 <= k < from ==> r.former[k] == former[k]
    ensures forall k :: from <= k < |scan| ==> r.former[k] == scan[k]
    ensures !handler ==> r.fired == []
    decreases |scan| - from
  {
    if from == |scan| then
      PassResult(former, status, [])
    else
      var i := from;
      var commit := scan[i] == former[i] && status[i] != scan[i];
      var status' := if commit then status[i := scan[i]] else status;
      var notified := if commit && handler then [Notification(i, Invert(status'[i]))] else [];
      var rest := PassFrom(scan, former[i := scan[i]], status', handler, i + 1);
      PassResult(rest.former, rest.status, notified + rest.fired)
  }

  /** The status a pass from `from` leaves for switch `k`: untouched below
      `from`; at or above it, the current sample when it agrees with the
      previous one, and the old status otherwise. */
  lemma {:induction false} PassFromStatusAt(scan: seq<Bit>, former: seq<Bit>, status: seq<Bit>, handler: bool, from: nat, k: nat)
    requires SameLength(scan, former, status) && from <= |scan| && k < |scan|
    ensures PassFrom(scan, former, status, handler, from).status[k] ==
      (if k < from || scan[k] != former[k] then status[k] else scan[k])
    decreases |scan| - from
  {
    if from < |scan| {
      var i := from;
      var commit := scan[i] == former[i] && status[i] != scan[i];
      var status' := if commit then status[i := scan[i]] else status;
      PassFromStatusAt(scan, former[i := scan[i]], status', handler, i + 1, k);
    }
  }

  /** The status table a pass from `from` leaves is the debounced one. */
  lemma PassFromDebounces(scan: seq<Bit>, former: seq<Bit>, status: seq<Bit>, handler: bool, from: nat)
    requires SameLength(scan, former, status) && from <= |scan|
    ensures Debounced(scan, former, status, PassFrom(scan, former, status, handler, from).status, from)
  {
    forall k | 0 <= k < |scan|
      ensures PassFrom(scan, former, status, handler, from).status[k] ==
        (if k < from || scan[k] != former[k] then status[k] else scan[k])
    {
      PassFromStatusAt(scan, former, status, handler, from, k);
    }
  }

  /** The notifications of a pass from `from` come in strictly ascending
      index order, all at or above `from`. */
  lemma {:induction false} PassFromAscending(scan: seq<Bit>, former: seq<Bit>, status: seq<Bit>, handler: bool, from: nat)
    requires SameLength(scan, former, status) && from <= |scan|
    ensures Ascending(PassFrom(scan, former, status, handler, from).fired)
    ensures forall j :: 0 <= j < |PassFrom(scan, former, status, handler, from).fired| ==>
      from <= PassFrom(scan, former, status, handler, from).fired[j].index < |scan|
    decreases |scan| - from
  {
    if from < |scan| {
      var i := from;
      var commit := scan[i] == former[i] && status[i] != scan[i];
      var status' := if commit then status[i := scan[i]] else status;
      PassFromAscending(scan, former[i := scan[i]], status', handler, i + 1);
    }
  }

  /** Every notification of a pass from `from` names a switch whose status
      changed and carries its inverted new status. */
  lemma {:induction false} PassFromNotifiesChanges(scan: seq<Bit>, former: seq<Bit>, status: seq<Bit>, handler: bool, from: nat)
    requires SameLength(scan, former, status) && from <= |scan|
    ensures var r := PassFrom(scan, former, status, handler, from);
      NotifiesChanges(status, r.status, r.fired, from)
    decreases |scan| - from
  {
    if from < |scan| {
      var r := PassFrom(scan, former, status, handler, from);
      var i := from;
      var commit := scan[i] == former[i] && status[i] != scan[i];
      var status' := if commit then status[i := scan[i]] else status;
      var notified := if commit && handler then [Notification(i, Invert(status'[i]))] else [];
      var rest := PassFrom(scan, former[i := scan[i]], status', handler, i + 1);
      PassFromNotifiesChanges(scan, former[i := scan[i]], status', handler, i + 1);
      PassFromDebounces(scan, former[i := scan[i]], status', handler, i + 1);
      assert r.fired == notified + rest.fired;
      forall j | 0 <= j < |r.fired|
        ensures from <= r.fired[j].index < |status|
        ensures r.status[r.fired[j].index] != status[r.fired[j].index]
        ensures r.fired[j].level == Invert(r.status[r.fired[j].index])
      {
        if j < |notified| {
          assert r.fired[j] == Notification(i, Invert(status'[i]));
          assert rest.status[i] == status'[i];
        } else {
          assert r.fired[j] == rest.fired[j - |notified|];
        }
      }
    }
  }

  /** With a handler set, a pass from `from` notifies every switch at or
      above `from` whose status changed. */
  lemma {:induction false} PassFromNotifiesEveryChange(scan: seq<Bit>, former: seq<Bit>, status: seq<Bit>, handler: bool, from: nat)
    requires SameLength(scan, former, status) && from <= |scan|
    ensures var r := PassFrom(scan, former, status, handler, from);
      handler ==> NotifiesEveryChange(status, r.status, r.fired, from)
    decreases |scan| - from
  {
    if handler && from < |scan| {
      var r := PassFrom(scan, former, status, true, from);
      var i := from;
      var commit := scan[i] == former[i] && status[i] != scan[i];
      var status' := if commit then status[i := scan[i]] else status;
      var notified := if commit then [Notification(i, Invert(status'[i]))] else [];
      var rest := PassFrom(scan, former[i := scan[i]], status', true, i + 1);
      PassFromNotifiesEveryChange(scan, former[i := scan[i]], status', true, i + 1);
      PassFromDebounces(scan, former[i := scan[i]], status', true, i + 1);
      assert r.fired == notified + rest.fired;
      forall k | from <= k < |status| && r.status[k] != status[k]
        ensures Notified(r.fired, k)
      {
        if k == i {
          assert rest.status[i] == status'[i];
          assert r.fired[0].index == k;
        } else {
          assert rest.status[k] != status'[k];
          var j :| 0 <= j < |rest.fired| && rest.fired[j].index == k;
          assert r.fired[|notified| + j].index == k;
        }
      }
    }
  }

  /** Where the previous samples equal the committed levels, no sample can
      be confirmed as a change: a pass from `from` leaves the table as it is
      and notifies nobody. */
  lemma {:induction false} PassFromSilentWhileFormerIsStatus(scan: seq<Bit>, former: seq<Bit>, status: seq<Bit>, handler: bool, from: nat)
    requires SameLength(scan, former, status) && from <= |scan|
    requires forall k :: from <= k < |scan| ==> former[k] == status[k]
    ensures PassFrom(scan, former, status, handler, from).status == status
    ensures PassFrom(scan, former, status, handler, from).fired == []
    decreases |scan| - from
  {
    if from < |scan| {
      PassFromSilentWhileFormerIsStatus(scan, former[from := scan[from]], status, handler, from + 1);
    }
  }

  /** One debounce pass over the whole table (`updateSwitchStatus`): a
      status changes only where the two latest samples agree, and then to
      that sample; where they disagree it is untouched; afterwards the
      previous-sample buffer equals the current one; the handler, when set,
      is called once per changed switch, in ascending index order, with the
      inverted new status, and never otherwise. */
  function UpdateSwitchStatus(scan: seq<Bit>, former: seq<Bit>, status: seq<Bit>, handler: bool): (r: PassResult)
    requires SameLength(scan, former, status)
    ensures SameLength(scan, r.former, r.status)
    ensures r.former == scan
    ensures forall k :: 0 <= k < |scan| && r.status[k] != status[k] ==>
      scan[k] == former[k] && r.status[k] == scan[k]
    ensures forall k :: 0 <= k < |scan| && scan[k] == former[k] ==> r.status[k] == scan[k]
    ensures forall k :: 0 <= k < |scan| && scan[k] != former[k] ==> r.status[k] == status[k]
    ensures Ascending(r.fired)
    ensures NotifiesChanges(status, r.status, r.fired, 0)
    ensures handler ==> NotifiesEveryChange(status, r.status, r.fired, 0)
    ensures !handler ==> r.fired == []
  {
    PassFromDebounces(scan, former, status, handler, 0);
    PassFromAscending(scan, former, status, handler, 0);
    PassFromNotifiesChanges(scan, former, status, handler, 0);
    PassFromNotifiesEveryChange(scan, former, status, handler, 0);
    PassFrom(scan, former, status, handler, 0)
  }

  /** Each entry of a history of samples covers every switch. */
  predicate Covers(scans: seq<seq<Bit>>, n: nat)
  {
    forall j :: 0 <= j < |scans| ==> |scans[j]| == n
  }

  /** The debounce passes of successive read phases, one per entry of
      `scans` (oldest first), starting from the given buffers, with all
      notifications in the order they were made. */
  function PassAll(scans: seq<seq<Bit>>, former: seq<Bit>, status: seq<Bit>, handler: bool): (r: PassResult)
    requires |status| == |former| && Covers(scans, |former|)
    ensures |r.former| == |former| && |r.status| == |former|
    ensures |scans| > 0 ==> r.former == scans[|scans| - 1]
    decreases |scans|
  {
    if |scans| == 0 then PassResult(former, status, [])
    else
      var prev := PassAll(scans[..|scans| - 1], former, status, handler);
      var pass := UpdateSwitchStatus(scans[|scans| - 1], prev.former, prev.status, handler);
      PassResult(pass.former, pass.status, prev.fired + pass.fired)
  }

  /** A switch whose every sample differs from the one before it (the
      first from the previous sample held before the history) never
      commits a change and is never notified: single-scan glitches such as
      the sample run 0, 1, 0 against a previous 1 are filtered out. */
  lemma {:induction false} AlternatingSamplesNeverCommit(scans: seq<seq<Bit>>, former: seq<Bit>, status: seq<Bit>, handler: bool, k: nat)
    requires |status| == |former| && Covers(scans, |former|) && k < |former|
    requires |scans| > 0 ==> scans[0][k] != former[k]
    requires forall j :: 0 < j < |scans| ==> scans[j][k] != scans[j - 1][k]
    ensures PassAll(scans, former, status, handler).status[k] == status[k]
    ensures !Notified(PassAll(scans, former, status, handler).fired, k)
    decreases |scans|
  {
    if |scans| > 0 {
      var init := scans[..|scans| - 1];
      var prev := PassAll(init, former, status, handler);
      var last := scans[|scans| - 1];
      var pass := UpdateSwitchStatus(last, prev.former, prev.status, handler);
      AlternatingSamplesNeverCommit(init, former, status, handler, k);
      assert last[k] != prev.former[k] by {
        if |init| > 0 {
          assert prev.former == scans[|scans| - 2];
        }
      }
      assert pass.status[k] == prev.status[k];
      forall j | 0 <= j < |prev.fired + pass.fired|
        ensures (prev.fired + pass.fired)[j].index != k
      {
        if j >= |prev.fired| {
          assert (prev.fired + pass.fired)[j] == pass.fired[j - |prev.fired|];
        }
      }
    }
  }

  /** Once the last two samples of a switch agree, its committed level is
      that sample: a change that persists for two scans is accepted. */
  lemma TwoAgreeingSamplesCommit(scans: seq<seq<Bit>>, former: seq<Bit>, status: seq<Bit>, handler: bool, k: nat)
    requires |status| == |former| && Covers(scans, |former|) && k < |former|
    requires |scans| >= 2 && scans[|scans| - 1][k] == scans[|scans| - 2][k]
    ensures PassAll(scans, former, status, handler).status[k] == scans[|scans| - 1][k]
  {
    var init := scans[..|scans| - 1];
    assert PassAll(init, former, status, handler).former == scans[|scans| - 2];
  }

  /** When the two latest samples agree with the committed level, a pass
      changes no status and calls no handler. */
  lemma SettledPassIsSilent(scan: seq<Bit>, former: seq<Bit>, status: seq<Bit>, handler: bool)
    requires SameLength(scan, former, status)
    requires scan == former && former == status
    ensures UpdateSwitchStatus(scan, former, status, handler).status == status
    ensures UpdateSwitchStatus(scan, former, status, handler).fired == []
  {
    PassFromSilentWhileFormerIsStatus(scan, former, status, handler, 0);
  }
}
