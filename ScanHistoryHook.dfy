/**
 * hooks/useScanHistory.ts: the bounded log of the last five analyses, newest first,
 * written through to local storage on every change.
 */
module ScanHistoryHook {
  import opened Wrappers
  import opened Types
  import opened Storage
  import opened Constants

  /** At most this many entries are kept. */
  const HistoryLimit: nat := 5

  function Min(a: int, b: int): int
  {
    if a <= b then a else b
  }

  /** The decimal digit character of `d`. */
  function DigitChar(d: nat): char
    requires d < 10
  {
    "0123456789"[d]
  }

  /** `n.toString()` for a non-negative integer, as `Date.now().toString()` gives the entry id. */
  function DecimalString(n: nat): (s: string)
    ensures s != []
    ensures forall i :: 0 <= i < |s| ==> '0' <= s[i] <= '9'
  {
    if n < 10 then [DigitChar(n)] else DecimalString(n / 10) + [DigitChar(n % 10)]
  }

  /** The number a string of decimal digits denotes. */
  function DecimalValue(s: string): nat
    requires forall i :: 0 <= i < |s| ==> '0' <= s[i] <= '9'
  {
    if s == [] then 0 else 10 * DecimalValue(s[..|s| - 1]) + (s[|s| - 1] as int - '0' as int)
  }

  /** The id text of a clock value reads back as that value. */
  lemma {:induction false} DecimalRoundTrip(n: nat)
    ensures DecimalValue(DecimalString(n)) == n
    decreases n
  {
    var s := DecimalString(n);
    if n >= 10 {
      DecimalRoundTrip(n / 10);
      assert s[..|s| - 1] == DecimalString(n / 10);
    }
  }

  /** Distinct clock values give distinct ids. */
  lemma DecimalStringInjective(a: nat, b: nat)
    ensures DecimalString(a) == DecimalString(b) <==> a == b
  {
    DecimalRoundTrip(a);
    DecimalRoundTrip(b);
  }

  /** The list view of a recommendation: its product name, match type and location. */
  function SummaryOf(data: Recommendation): Summary
  {
    Summary(data.productName, data.matchType, data.locationDescription)
  }

  /** A history entry whose summary agrees with its full data. */
  predicate Consistent(item: ScanHistoryItem)
  {
    item.summary == SummaryOf(item.fullData)
  }

  /**
   * The entry `saveToHistory` builds: id and timestamp come from two readings of the clock,
   * the summary is derived from `data`, and `data` itself is kept whole.
   */
  function NewItem(data: Recommendation, idClock: nat, timestamp: int): (item: ScanHistoryItem)
    ensures item.fullData == data && Consistent(item)
    ensures item.summary.productName == data.productName
    ensures item.summary.matchType == data.matchType
    ensures item.summary.locationDescription == data.locationDescription
    ensures item.id == DecimalString(idClock) && item.timestamp == timestamp
  {
    ScanHistoryItem(DecimalString(idClock), timestamp, SummaryOf(data), data)
  }

  /**
   * `[newItem, ...history].slice(0, 5)`: the new entry first, then the previous entries in
   * their order, cut to five; only entries past the fifth are dropped.
   */
  function Saved(history: seq<ScanHistoryItem>, item: ScanHistoryItem): (r: seq<ScanHistoryItem>)
    ensures |r| == Min(|history| + 1, HistoryLimit)
    ensures r[0] == item
    ensures r[1..] == history[..|r| - 1]
  {
    ([item] + history)[..Min(|history| + 1, HistoryLimit)]
  }

  /**
   * The list view never disagrees with the data it opens: when every entry's summary is that of
   * its own data, the same holds after a save.
   */
  lemma SavedKeepsConsistent(history: seq<ScanHistoryItem>, data: Recommendation, idClock: nat, timestamp: int)
    requires forall i :: 0 <= i < |history| ==> Consistent(history[i])
    ensures var r := Saved(history, NewItem(data, idClock, timestamp));
      forall i :: 0 <= i < |r| ==> Consistent(r[i])
  {
    var r := Saved(history, NewItem(data, idClock, timestamp));
    forall i | 0 <= i < |r|
      ensures Consistent(r[i])
    {
      if i > 0 {
        assert r[i] == r[1..][i - 1] == history[i - 1];
      }
    }
  }

  /** The entries in the order they were saved, newest first. */
  function Reversed(items: seq<ScanHistoryItem>): (r: seq<ScanHistoryItem>)
    ensures |r| == |items|
  {
    if items == [] then [] else Reversed(items[1..]) + [items[0]]
  }

  /** The log after saving `items` one after another, first to last. */
  function SaveAll(history: seq<ScanHistoryItem>, items: seq<ScanHistoryItem>): seq<ScanHistoryItem>
    decreases |items|
  {
    if items == [] then history else SaveAll(Saved(history, items[0]), items[1..])
  }

  /** Cutting the tail of a concatenation short changes nothing within the part still inside the cut. */
  lemma PrefixOfAppend(r: seq<ScanHistoryItem>, a: seq<ScanHistoryItem>, k: nat, m: nat)
    requires k <= |a| && m <= |r| + k
    ensures (r + a[..k])[..m] == (r + a)[..m]
  {
    forall i | 0 <= i < m
      ensures (r + a[..k])[i] == (r + a)[i]
    {
      if i >= |r| {
        assert (r + a[..k])[i] == a[..k][i - |r|];
      }
    }
  }

  /**
   * A log of at most five entries is a window over everything saved: after saving `items`, it
   * holds the five newest of them and of the earlier entries, newest first. The oldest entries
   * are the ones evicted.
   */
  lemma {:induction false} SaveAllWindow(history: seq<ScanHistoryItem>, items: seq<ScanHistoryItem>)
    requires |history| <= HistoryLimit
    ensures SaveAll(history, items) == (Reversed(items) + history)[..Min(|items| + |history|, HistoryLimit)]
    decreases |items|
  {
    if items == [] {
      assert Reversed(items) + history == history;
    } else {
      var x := items[0];
      var a := [x] + history;
      var h1 := Saved(history, x);
      var k := Min(|history| + 1, HistoryLimit);
      assert h1 == a[..k];
      SaveAllWindow(h1, items[1..]);
      var rest := Reversed(items[1..]);
      var m := Min(|items| + |history|, HistoryLimit);
      assert Min(|items[1..]| + |h1|, HistoryLimit) == m;
      PrefixOfAppend(rest, a, k, m);
      assert Reversed(items) == rest + [x];
      assert rest + a == Reversed(items) + history;
    }
  }

  /** `useScanHistory`: the in-memory list and its mirror under `HistoryKey`. */
  class ScanHistory {
    var history: seq<ScanHistoryItem>
    const storage: LocalStorage
    const codec: Codec<seq<ScanHistoryItem>>

    /** `useState([])`: the list starts empty. */
    constructor (storage: LocalStorage, codec: Codec<seq<ScanHistoryItem>>)
      ensures history == [] && this.storage == storage && this.codec == codec
    {
      this.history := [];
      this.storage := storage;
      this.codec := codec;
    }

    /**
     * The mount effect: adopt the stored list when there is non-empty stored text that parses;
     * an absent, empty or unparseable value leaves the list as it was.
     */
    method Load()
      modifies this
      ensures var stored := storage.GetItem(HistoryKey);
        if Truthy(stored) && codec.decode(stored.value).Some?
        then history == codec.decode(stored.value).value
        else history == old(history)
    {
      var stored := storage.GetItem(HistoryKey);
      if Truthy(stored) {
        var parsed := codec.decode(stored.value);
        if parsed.Some? {
          history := parsed.value;
        }
      }
    }

    /**
     * `saveToHistory` as called through the closure of one render: `rendered` is the `history`
     * that render saw, which is the current list only when that render is the latest. The new
     * entry is prepended to `rendered`, five are kept, and the list is written through to storage.
     */
    method SaveToHistory(rendered: seq<ScanHistoryItem>, data: Recommendation, idClock: nat, timestamp: int)
      modifies this, storage
      ensures history == Saved(rendered, NewItem(data, idClock, timestamp))
      ensures history[0].fullData == data && |history| <= HistoryLimit
      ensures storage.items == old(storage.items)[HistoryKey := codec.encode(history)]
    {
      var newItem := NewItem(data, idClock, timestamp);
      var updatedHistory := Saved(rendered, newItem);
      history := updatedHistory;
      storage.SetItem(HistoryKey, codec.encode(updatedHistory));
    }

    /** `clearHistory`: empty the list and remove its storage key. */
    method ClearHistory()
      modifies this, storage
      ensures history == []
      ensures storage.items == old(storage.items) - {HistoryKey}
    {
      history := [];
      storage.RemoveItem(HistoryKey);
    }
  }

  /**
   * What a save writes is what the next mount reads: when the saved list's text reads back as
   * that list, a fresh hook on the same storage loads exactly the list the save produced.
   */
  method SaveThenRemount(h: ScanHistory, rendered: seq<ScanHistoryItem>, data: Recommendation, idClock: nat, timestamp: int)
    returns (remounted: ScanHistory)
    requires RoundTripsAt(h.codec, Saved(rendered, NewItem(data, idClock, timestamp)))
    modifies h, h.storage
    ensures fresh(remounted) && remounted.storage == h.storage
    ensures h.history == Saved(rendered, NewItem(data, idClock, timestamp))
    ensures remounted.history == h.history
  {
    h.SaveToHistory(rendered, data, idClock, timestamp);
    remounted := new ScanHistory(h.storage, h.codec);
    remounted.Load();
  }
}
