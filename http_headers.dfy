/**
 * Spring's `HttpHeaders` as the logger uses it: an insertion-ordered map from
 * header name to the list of its values, with names compared without regard
 * to (ASCII) case. `add` appends a value to the name's list (creating the
 * entry at the end when the name is new, and keeping the stored spelling
 * otherwise); `set` replaces the list by one value, keeping the entry where it
 * is when the name is spelled as stored, and otherwise removing the old entry
 * and appending one under the new spelling, as Spring's
 * `LinkedCaseInsensitiveMap.put` does. A value may be Java `null` (`None`).
 */
module Headers {
  import opened Wrappers

  datatype HeaderEntry = HeaderEntry(name: string, values: seq<Option<string>>)

  function LowerAscii(c: char): char
  {
    if 'A' <= c <= 'Z' then (c as int - 'A' as int + 'a' as int) as char else c
  }

  /** The case-insensitive lookup key of a header name. */
  function Key(name: string): (k: string)
    ensures |k| == |name|
  {
    seq(|name|, i requires 0 <= i < |name| => LowerAscii(name[i]))
  }

  /** No two entries share a key. */
  ghost predicate DistinctKeys(entries: seq<HeaderEntry>)
  {
    forall i, j :: 0 <= i < j < |entries| ==> Key(entries[i].name) != Key(entries[j].name)
  }

  /** Position of the entry for `name`, if any. */
  function Find(entries: seq<HeaderEntry>, name: string): (r: Option<nat>)
    ensures r.Some? ==> r.value < |entries| && Key(entries[r.value].name) == Key(name)
    ensures r.Some? ==> forall j :: 0 <= j < r.value ==> Key(entries[j].name) != Key(name)
    ensures r.None? ==> forall j :: 0 <= j < |entries| ==> Key(entries[j].name) != Key(name)
  {
    if entries == [] then None
    else if Key(entries[0].name) == Key(name) then Some(0)
    else
      match Find(entries[1..], name)
      case None => None
      case Some(i) => Some(i + 1)
  }

  /** `headers.get(name)`: the values recorded for `name` (none when absent). */
  function Get(entries: seq<HeaderEntry>, name: string): seq<Option<string>>
  {
    match Find(entries, name)
    case None => []
    case Some(i) => entries[i].values
  }

  /** The header names in transmission order. */
  function Names(entries: seq<HeaderEntry>): (ns: seq<string>)
    ensures |ns| == |entries| && forall i :: 0 <= i < |entries| ==> ns[i] == entries[i].name
  {
    if entries == [] then [] else [entries[0].name] + Names(entries[1..])
  }

  /** The entries after `headers.add(name, value)`. */
  function AddValue(entries: seq<HeaderEntry>, name: string, value: Option<string>): seq<HeaderEntry>
  {
    match Find(entries, name)
    case None => entries + [HeaderEntry(name, [value])]
    case Some(i) => entries[i := HeaderEntry(entries[i].name, entries[i].values + [value])]
  }

  /** The entries after `headers.set(name, value)`. */
  function SetValue(entries: seq<HeaderEntry>, name: string, value: Option<string>): seq<HeaderEntry>
  {
    match Find(entries, name)
    case None => entries + [HeaderEntry(name, [value])]
    case Some(i) =>
      if entries[i].name == name then entries[i := HeaderEntry(name, [value])]
      else RemoveAt(entries, i) + [HeaderEntry(name, [value])]
  }

  /** The entries without the one at position `i`. */
  function RemoveAt(entries: seq<HeaderEntry>, i: nat): (r: seq<HeaderEntry>)
    requires i < |entries|
    ensures |r| == |entries| - 1
    ensures forall j :: 0 <= j < |r| ==> r[j] == entries[if j < i then j else j + 1]
  {
    entries[..i] + entries[i + 1..]
  }

  lemma FindUnique(entries: seq<HeaderEntry>, name: string, i: nat)
    requires DistinctKeys(entries)
    requires i < |entries| && Key(entries[i].name) == Key(name)
    ensures Find(entries, name) == Some(i)
  {
  }

  /** After `add`, the name has one more value at the end; every other name is untouched. */
  lemma GetAfterAdd(entries: seq<HeaderEntry>, name: string, value: Option<string>, other: string)
    requires DistinctKeys(entries)
    ensures DistinctKeys(AddValue(entries, name, value))
    ensures Get(AddValue(entries, name, value), other)
         == if Key(other) == Key(name) then Get(entries, name) + [value] else Get(entries, other)
  {
    var after := AddValue(entries, name, value);
    match Find(entries, name)
    case None =>
      FindLast(entries, name, value, other);
    case Some(i) =>
      assert forall j :: 0 <= j < |after| ==> after[j].name == entries[j].name;
      if Key(other) == Key(name) {
        FindUnique(after, other, i);
      } else if f :| Find(entries, other) == Some(f) {
        FindUnique(after, other, f);
      }
  }

  /** After `set`, the name has exactly the new value; every other name is untouched. */
  lemma GetAfterSet(entries: seq<HeaderEntry>, name: string, value: Option<string>, other: string)
    requires DistinctKeys(entries)
    ensures DistinctKeys(SetValue(entries, name, value))
    ensures Get(SetValue(entries, name, value), other)
         == if Key(other) == Key(name) then [value] else Get(entries, other)
  {
    var after := SetValue(entries, name, value);
    match Find(entries, name)
    case None =>
      FindLast(entries, name, value, other);
    case Some(i) =>
      if entries[i].name == name {
        assert forall j :: 0 <= j < |after| ==> after[j].name == entries[j].name;
        if Key(other) == Key(name) {
          FindUnique(after, other, i);
        } else if f :| Find(entries, other) == Some(f) {
          FindUnique(after, other, f);
        }
      } else {
        var rest := RemoveAt(entries, i);
        GetAfterRemove(entries, i, name);
        if Key(other) != Key(name) {
          GetAfterRemove(entries, i, other);
        }
        FindLast(rest, name, value, other);
      }
  }

  /**
   * Removing the entry at `i` keeps the keys distinct, loses that entry's key
   * and leaves the lookup of every other key as it was.
   */
  lemma GetAfterRemove(entries: seq<HeaderEntry>, i: nat, other: string)
    requires DistinctKeys(entries) && i < |entries|
    ensures DistinctKeys(RemoveAt(entries, i))
    ensures Key(other) == Key(entries[i].name) ==> Find(RemoveAt(entries, i), other).None?
    ensures Key(other) != Key(entries[i].name) ==> Get(RemoveAt(entries, i), other) == Get(entries, other)
  {
    var rest := RemoveAt(entries, i);
    forall a, b | 0 <= a < b < |rest| ensures Key(rest[a].name) != Key(rest[b].name) {
      var a', b' := if a < i then a else a + 1, if b < i then b else b + 1;
      assert rest[a] == entries[a'] && rest[b] == entries[b'];
    }
    if Key(other) == Key(entries[i].name) {
      forall j | 0 <= j < |rest| ensures Key(rest[j].name) != Key(other) {
        assert rest[j] == entries[if j < i then j else j + 1];
      }
    } else {
      match Find(entries, other)
      case Some(f) =>
        assert rest[if f < i then f else f - 1] == entries[f];
        FindUnique(rest, other, if f < i then f else f - 1);
      case None =>
        forall j | 0 <= j < |rest| ensures Key(rest[j].name) != Key(other) {
          assert rest[j] == entries[if j < i then j else j + 1];
        }
    }
  }

  /** Appending an entry for a new name: the new entry is found last, the others where they were. */
  lemma FindLast(entries: seq<HeaderEntry>, name: string, value: Option<string>, other: string)
    requires DistinctKeys(entries) && Find(entries, name).None?
    ensures DistinctKeys(entries + [HeaderEntry(name, [value])])
    ensures Get(entries + [HeaderEntry(name, [value])], other)
         == if Key(other) == Key(name) then [value] else Get(entries, other)
  {
    var after := entries + [HeaderEntry(name, [value])];
    if Key(other) == Key(name) {
      FindUnique(after, other, |entries|);
    } else if f :| Find(entries, other) == Some(f) {
      FindUnique(after, other, f);
    } else {
      assert forall j :: 0 <= j < |after| ==> Key(after[j].name) != Key(other);
    }
  }

  /**
   * `add` and `set` put a new name at the end of the order. `add` leaves the
   * order of a present name alone; so does `set` when the name is spelled as
   * stored, while a differently spelled `set` moves the name to the end under
   * its new spelling.
   */
  lemma NamesAfterUpdate(entries: seq<HeaderEntry>, name: string, value: Option<string>)
    ensures Find(entries, name).None? ==>
      Names(AddValue(entries, name, value)) == Names(SetValue(entries, name, value)) == Names(entries) + [name]
    ensures Find(entries, name).Some? ==> Names(AddValue(entries, name, value)) == Names(entries)
    ensures Find(entries, name).Some? ==>
      var i := Find(entries, name).value;
      Names(SetValue(entries, name, value))
        == if entries[i].name == name then Names(entries)
           else Names(entries)[..i] + Names(entries)[i + 1..] + [name]
  {
    match Find(entries, name)
    case None =>
      NamesAppend(entries, HeaderEntry(name, [value]));
    case Some(i) =>
      NamesSameSpelling(entries, AddValue(entries, name, value));
      if entries[i].name == name {
        NamesSameSpelling(entries, SetValue(entries, name, value));
      } else {
        NamesAppend(RemoveAt(entries, i), HeaderEntry(name, [value]));
        NamesRemoveAt(entries, i);
      }
  }

  lemma NamesAppend(entries: seq<HeaderEntry>, e: HeaderEntry)
    ensures Names(entries + [e]) == Names(entries) + [e.name]
  {
  }

  lemma NamesRemoveAt(entries: seq<HeaderEntry>, i: nat)
    requires i < |entries|
    ensures Names(RemoveAt(entries, i)) == Names(entries)[..i] + Names(entries)[i + 1..]
  {
    var ns, rs := Names(entries), Names(RemoveAt(entries, i));
    forall j | 0 <= j < |rs| ensures rs[j] == (ns[..i] + ns[i + 1..])[j] {
      if j >= i { assert (ns[..i] + ns[i + 1..])[j] == ns[j + 1]; }
    }
  }

  lemma NamesSameSpelling(entries: seq<HeaderEntry>, updated: seq<HeaderEntry>)
    requires |updated| == |entries| && forall j :: 0 <= j < |entries| ==> updated[j].name == entries[j].name
    ensures Names(updated) == Names(entries)
  {
  }

  /** Setting a present header under another spelling moves it to the end under that spelling. */
  lemma RespelledSet()
    ensures SetValue([HeaderEntry("Log-Type", [Some("a")]), HeaderEntry("x", [Some("b")])], "LOG-TYPE", Some("c"))
         == [HeaderEntry("x", [Some("b")]), HeaderEntry("LOG-TYPE", [Some("c")])]
  {
  }

  /** The mutable header collection of one request. */
  class HttpHeaders {
    var entries: seq<HeaderEntry>

    ghost predicate Valid()
      reads this
    {
      DistinctKeys(entries)
    }

    constructor ()
      ensures Valid() && entries == []
    {
      entries := [];
    }

    method Add(name: string, value: Option<string>)
      requires Valid()
      modifies this
      ensures Valid()
      ensures entries == AddValue(old(entries), name, value)
    {
      GetAfterAdd(entries, name, value, name);
      entries := AddValue(entries, name, value);
    }

    method Set(name: string, value: Option<string>)
      requires Valid()
      modifies this
      ensures Valid()
      ensures entries == SetValue(old(entries), name, value)
    {
      GetAfterSet(entries, name, value, name);
      entries := SetValue(entries, name, value);
    }
  }
}
