/** The onset pool of model/pool/OnsetPoolModel.py: detected onset lists
    stored under string pool numbers. */
module OnsetPool {
  import opened Wrappers
  import opened Numerals

  /** An onset pool entry. */
  datatype PoolItem = PoolItem(name: string, onsetData: seq<real>, parentSong: string, parentFilterName: Option<string>)

  /** A `pool_number` argument: Python lets the caller pass an int or a str. */
  datatype PoolNumber = IntNumber(n: int) | TextNumber(s: string)

  /** `str(pool_number)`. */
  function KeyOf(p: PoolNumber): string
  {
    match p
    case IntNumber(n) => IntToString(n)
    case TextNumber(s) => s
  }

  /** The stored item: the given name, or "onset_" followed by the key. */
  function ItemFor(key: string, name: Option<string>, onsetData: seq<real>, parentSong: string,
                   parentFilterName: Option<string>): (r: PoolItem)
    ensures name.Some? ==> r.name == name.value
    ensures name.None? ==> r.name == "onset_" + key
    ensures r.onsetData == onsetData && r.parentSong == parentSong && r.parentFilterName == parentFilterName
  {
    PoolItem(if name.Some? then name.value else "onset_" + key, onsetData, parentSong, parentFilterName)
  }

  /** A number above every numeric key prints as a key not yet in use. */
  lemma NextKeyIsFresh(items: map<string, PoolItem>, highest: int)
    requires forall k :: k in items ==> ParseInt(k).Some? && ParseInt(k).value <= highest
    ensures IntToString(highest + 1) !in items
  {
    ParseIntToString(highest + 1);
  }

  /** `highest` is `max(int(key) for key in items)`: every key reads as a
      number no greater than it, and some key reads as it. */
  ghost predicate IsHighestKey(items: map<string, PoolItem>, highest: int)
  {
    && (forall k :: k in items ==> ParseInt(k).Some? && ParseInt(k).value <= highest)
    && (exists k :: k in items && ParseInt(k) == Some(highest))
  }

  /** The highest key is one number: `Add` has no choice of next key. */
  lemma HighestKeyUnique(items: map<string, PoolItem>, a: int, b: int)
    requires IsHighestKey(items, a) && IsHighestKey(items, b)
    ensures a == b
  {
    var ka :| ka in items && ParseInt(ka) == Some(a);
    var kb :| kb in items && ParseInt(kb) == Some(b);
    assert ParseInt(ka).value <= b && ParseInt(kb).value <= a;
  }

  class OnsetPoolModel {
    var items: map<string, PoolItem>

    constructor ()
      ensures items == map[]
    {
      items := map[];
    }

    /** `max([int(key) for key in self.items.keys()])` on a non-empty pool;
        `None` stands for the ValueError `int` raises on a key that is not
        a decimal number. */
    method HighestPoolNumber() returns (r: Option<int>)
      requires items != map[]
      ensures r.None? <==> exists k :: k in items && ParseInt(k).None?
      ensures r.Some? ==> IsHighestKey(items, r.value)
    {
      var remaining := items.Keys;
      var best: Option<int> := None;
      while remaining != {}
        invariant remaining <= items.Keys
        invariant best.None? <==> remaining == items.Keys
        invariant forall k :: k in items && k !in remaining ==> ParseInt(k).Some?
        invariant best.Some? ==> forall k :: k in items && k !in remaining ==> ParseInt(k).value <= best.value
        invariant best.Some? ==> exists k :: k in items && k !in remaining && ParseInt(k) == Some(best.value)
        decreases remaining
      {
        var key :| key in remaining;
        var value := ParseInt(key);
        if value.None? {
          return None;
        }
        if best.None? || value.value > best.value {
          best := value;
        }
        remaining := remaining - {key};
      }
      assert items.Keys != {};
      return best;
    }

    /** `add`: a text pool number already in use raises ValueError; an int
        pool number is compared with the string keys, never matches, and
        so replaces whatever is stored under its decimal text; without a
        pool number the next number above the highest key is used. */
    method Add(onsetData: seq<real>, parentSong: string, parentFilterName: Option<string> := None,
               poolNumber: Option<PoolNumber> := None, name: Option<string> := None) returns (outcome: Outcome)
      modifies this
      ensures poolNumber.Some? && poolNumber.value.TextNumber? && poolNumber.value.s in old(items) ==>
                outcome == Raised(ValueError) && items == old(items)
      ensures poolNumber.Some? && !(poolNumber.value.TextNumber? && poolNumber.value.s in old(items)) ==>
                var key := KeyOf(poolNumber.value);
                outcome == Ok && items == old(items)[key := ItemFor(key, name, onsetData, parentSong, parentFilterName)]
      ensures poolNumber.None? && old(items) == map[] ==>
                outcome == Ok && items == map["1" := ItemFor("1", name, onsetData, parentSong, parentFilterName)]
      ensures poolNumber.None? && (exists k :: k in old(items) && ParseInt(k).None?) ==>
                outcome == Raised(ValueError) && items == old(items)
      ensures poolNumber.None? && old(items) != map[] && (forall k :: k in old(items) ==> ParseInt(k).Some?) ==>
                outcome == Ok
      ensures poolNumber.None? && old(items) != map[] && outcome == Ok ==>
                exists highest :: IsHighestKey(old(items), highest)
                  && var key := IntToString(highest + 1);
                     key !in old(items)
                     && items == old(items)[key := ItemFor(key, name, onsetData, parentSong, parentFilterName)]
    {
      var number: PoolNumber;
      if poolNumber.Some? {
        if poolNumber.value.TextNumber? && poolNumber.value.s in items {
          return Raised(ValueError);
        }
        number := poolNumber.value;
      } else {
        if items != map[] {
          var highest := HighestPoolNumber();
          if highest.None? {
            return Raised(ValueError);
          }
          number := IntNumber(highest.value + 1);
          NextKeyIsFresh(items, highest.value);
          ParseIntToString(highest.value + 1);
        } else {
          number := IntNumber(1);
          ParseIntToString(1);
        }
      }
      var key := KeyOf(number);
      items := items[key := ItemFor(key, name, onsetData, parentSong, parentFilterName)];
      outcome := Ok;
    }
  }
}
