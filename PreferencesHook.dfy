/**
 * hooks/useGlobalPreferences.ts: the user's dietary tags, toggled one at a time and written
 * through to local storage.
 */
module PreferencesHook {
  import opened Wrappers
  import opened Storage
  import opened Constants

  /** `tags.filter(t => t !== tag)`: every occurrence of `tag` removed, everything else in order. */
  function Without(tags: seq<string>, tag: string): (r: seq<string>)
    ensures multiset(r) == multiset(tags)[tag := 0]
    ensures |r| <= |tags|
  {
    if tags == [] then []
    else
      assert tags == [tags[0]] + tags[1..];
      if tags[0] == tag then Without(tags[1..], tag)
      else [tags[0]] + Without(tags[1..], tag)
  }

  /** The filter works element by element, so the kept tags stay in their relative order. */
  lemma {:induction false} WithoutAppend(a: seq<string>, b: seq<string>, tag: string)
    ensures Without(a + b, tag) == Without(a, tag) + Without(b, tag)
    decreases |a|
  {
    if a == [] {
      assert a + b == b;
    } else {
      assert (a + b)[1..] == a[1..] + b;
      WithoutAppend(a[1..], b, tag);
    }
  }

  /** Removing a tag that is not there leaves the list as it is. */
  lemma {:induction false} WithoutAbsent(tags: seq<string>, tag: string)
    requires tag !in tags
    ensures Without(tags, tag) == tags
    decreases |tags|
  {
    if tags != [] {
      WithoutAbsent(tags[1..], tag);
    }
  }

  /** `toggleTag`'s new list: a present tag is removed everywhere, an absent one appended. */
  function Toggled(tags: seq<string>, tag: string): (r: seq<string>)
    ensures tag in r <==> tag !in tags
    ensures forall t :: t != tag ==> (t in r <==> t in tags)
    ensures tag !in tags ==> |r| == |tags| + 1 && r[|tags|] == tag && r[..|tags|] == tags
    ensures tag !in tags ==> multiset(r)[tag] == 1
  {
    if tag in tags then
      assert forall t :: t in Without(tags, tag) <==> t in multiset(Without(tags, tag));
      Without(tags, tag)
    else tags + [tag]
  }

  /** Toggling an absent tag twice restores the exact list. */
  lemma ToggleTwiceAbsent(tags: seq<string>, tag: string)
    requires tag !in tags
    ensures Toggled(Toggled(tags, tag), tag) == tags
  {
    var once := tags + [tag];
    WithoutAppend(tags, [tag], tag);
    WithoutAbsent(tags, tag);
    assert Without([tag], tag) == [];
  }

  /**
   * Toggling a present tag twice restores the set of tags, with the tag moved to the end
   * once and the others kept in order.
   */
  lemma ToggleTwicePresent(tags: seq<string>, tag: string)
    requires tag in tags
    ensures Toggled(Toggled(tags, tag), tag) == Without(tags, tag) + [tag]
    ensures forall t :: t in Toggled(Toggled(tags, tag), tag) <==> t in tags
  {
  }

  /** No tag appears twice. */
  ghost predicate Distinct(tags: seq<string>)
  {
    forall t :: multiset(tags)[t] <= 1
  }

  /** A list without duplicates stays without duplicates. */
  lemma ToggleKeepsDistinct(tags: seq<string>, tag: string)
    requires Distinct(tags)
    ensures Distinct(Toggled(tags, tag))
  {
    if tag !in tags {
      assert multiset(tags + [tag]) == multiset(tags) + multiset{tag};
    }
  }

  /** `useGlobalPreferences`: the in-memory tag list and its mirror under `GlobalPrefsKey`. */
  class GlobalPreferences {
    var globalTags: seq<string>
    const storage: LocalStorage
    const codec: Codec<seq<string>>

    /** `useState([])`: no tags before the stored ones are read. */
    constructor (storage: LocalStorage, codec: Codec<seq<string>>)
      ensures globalTags == [] && this.storage == storage && this.codec == codec
    {
      this.globalTags := [];
      this.storage := storage;
      this.codec := codec;
    }

    /** The mount effect: adopt the stored list if its text is non-empty and parses; otherwise keep the list. */
    method Load()
      modifies this
      ensures var stored := storage.GetItem(GlobalPrefsKey);
        if Truthy(stored) && codec.decode(stored.value).Some?
        then globalTags == codec.decode(stored.value).value
        else globalTags == old(globalTags)
    {
      var stored := storage.GetItem(GlobalPrefsKey);
      if Truthy(stored) {
        var parsed := codec.decode(stored.value);
        if parsed.Some? {
          globalTags := parsed.value;
        }
      }
    }

    /** `toggleTag`: flip the tag's membership and write the new list through to storage. */
    method ToggleTag(tag: string)
      modifies this, storage
      ensures globalTags == Toggled(old(globalTags), tag)
      ensures storage.items == old(storage.items)[GlobalPrefsKey := codec.encode(globalTags)]
    {
      var newTags := if tag in globalTags then Without(globalTags, tag) else globalTags + [tag];
      globalTags := newTags;
      storage.SetItem(GlobalPrefsKey, codec.encode(newTags));
    }
  }

  /** A toggle's write is what the next mount reads, when the new list's text reads back as that list. */
  method ToggleThenRemount(p: GlobalPreferences, tag: string) returns (remounted: GlobalPreferences)
    requires RoundTripsAt(p.codec, Toggled(p.globalTags, tag))
    modifies p, p.storage
    ensures fresh(remounted) && remounted.storage == p.storage
    ensures p.globalTags == Toggled(old(p.globalTags), tag)
    ensures remounted.globalTags == p.globalTags
  {
    p.ToggleTag(tag);
    remounted := new GlobalPreferences(p.storage, p.codec);
    remounted.Load();
  }
}
