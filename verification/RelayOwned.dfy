/** The per-session record of owned entries: an insertion-ordered set kept in a file,
    trimmed to its newest part when it grows too long. */
module RelayOwned {
  import opened RelayTypes

  const MAX_ENTRIES := 2000
  const KEEP_ON_TRIM := 1000

  // ---- insertion-ordered sets ----------------------------------------------

  ghost predicate NoRepeats<T>(s: seq<T>) {
    forall i, j :: 0 <= i < j < |s| ==> s[i] != s[j]
  }

  function Add<T(==)>(s: seq<T>, e: T): seq<T> {
    if e in s then s else s + [e]
  }

  function AddAll<T(==)>(s: seq<T>, entries: seq<T>): seq<T> {
    if entries == [] then s else Add(AddAll(s, entries[..|entries| - 1]), entries[|entries| - 1])
  }

  function Trim<T>(s: seq<T>): seq<T> {
    if |s| > MAX_ENTRIES then s[|s| - KEEP_ON_TRIM..] else s
  }

  /** What is at the file's path. Corrupt: a file that does not hold a JSON array. */
  datatype Content<T> = Missing | Corrupt | Listed(entries: seq<T>)

  /** The entries without repeats, none when there is no readable list. */
  function Known<T(==)>(file: Content<T>): seq<T> {
    AddAll([], if file.Listed? then file.entries else [])
  }

  /** What recording leaves in the file: the old entries without repeats, then the
      new ones not yet there, in order of first insertion, trimmed from the front. */
  function Recorded<T(==)>(file: Content<T>, entries: seq<T>): seq<T> {
    Trim(AddAll(Known(file), entries))
  }

  lemma {:induction false} AddAllSpec<T>(s: seq<T>, entries: seq<T>)
    requires NoRepeats(s)
    ensures NoRepeats(AddAll(s, entries)) && s <= AddAll(s, entries)
    ensures forall x :: x in AddAll(s, entries) <==> x in s || x in entries
    ensures |AddAll(s, entries)| <= |s| + |entries|
  {
    if entries != [] {
      var last := |entries| - 1;
      AddAllSpec(s, entries[..last]);
      assert entries == entries[..last] + [entries[last]];
    }
  }

  lemma KnownSpec<T>(file: Content<T>)
    ensures NoRepeats(Known(file))
    ensures forall x :: x in Known(file) <==> file.Listed? && x in file.entries
  {
    AddAllSpec([], if file.Listed? then file.entries else []);
  }

  /** The file never exceeds the limit and never lists an entry twice. */
  lemma RecordedIsBounded<T>(file: Content<T>, entries: seq<T>)
    ensures |Recorded(file, entries)| <= MAX_ENTRIES && NoRepeats(Recorded(file, entries))
  {
    KnownSpec(file);
    AddAllSpec(Known(file), entries);
  }

  lemma {:induction false} AddAllGrows<T>(s: seq<T>, entries: seq<T>, k: nat)
    requires k <= |entries|
    ensures AddAll(s, entries[..k]) <= AddAll(s, entries)
  {
    if k < |entries| {
      var last := |entries| - 1;
      AddAllGrows(s, entries[..last], k);
      assert entries[..last][..k] == entries[..k];
    } else {
      assert entries[..k] == entries;
    }
  }

  /** Entries are kept in the order in which they were first seen. */
  lemma InsertionOrder<T>(s: seq<T>, entries: seq<T>, i: nat, j: nat)
    requires NoRepeats(s) && i < j < |entries| && entries[j] !in s && entries[j] !in entries[..i + 1]
    ensures exists p, q :: 0 <= p < q < |AddAll(s, entries)|
                           && AddAll(s, entries)[p] == entries[i] && AddAll(s, entries)[q] == entries[j]
  {
    var early, all := AddAll(s, entries[..i + 1]), AddAll(s, entries);
    AddAllSpec(s, entries[..i + 1]);
    AddAllSpec(s, entries);
    AddAllGrows(s, entries, i + 1);
    assert entries[..i + 1][i] == entries[i];
    var p :| 0 <= p < |early| && early[p] == entries[i];
    assert entries[j] in all;
    var q :| 0 <= q < |all| && all[q] == entries[j];
  }

  /** Nothing is dropped up to 2000 entries, and beyond that all but the last 1000. */
  lemma TrimIsExact<T>(file: Content<T>, entries: seq<T>)
    ensures var all := AddAll(Known(file), entries);
            Recorded(file, entries) == if |all| <= 2000 then all else all[|all| - 1000..]
    ensures forall x :: x in AddAll(Known(file), entries) <==> (file.Listed? && x in file.entries) || x in entries
  {
    KnownSpec(file);
    AddAllSpec(Known(file), entries);
  }

  /** An entry recorded on its own is kept, trim or no trim, except exactly when it was
      known already, in the old part of a file that is over the limit. */
  lemma SingleIsKept<T>(file: Content<T>, e: T)
    ensures var known := Known(file);
            e in Recorded(file, [e]) <==>
            e !in known || |known| <= MAX_ENTRIES || e in known[|known| - KEEP_ON_TRIM..]
  {
    var known := Known(file);
    assert [e][..0] == [] && AddAll(known, []) == known;
    var all := AddAll(known, [e]);
    if |all| > MAX_ENTRIES && e !in known {
      assert all[|all| - KEEP_ON_TRIM..][KEEP_ON_TRIM - 1] == e;
    }
  }

  /** A trim keeps the newest: with an entry it keeps everything inserted later. */
  lemma TrimKeepsNewer<T>(file: Content<T>, entries: seq<T>, i: nat, k: nat)
    requires var all := AddAll(Known(file), entries); i < k < |all| && all[i] in Recorded(file, entries)
    ensures AddAll(Known(file), entries)[k] in Recorded(file, entries)
  {
    var all := AddAll(Known(file), entries);
    KnownSpec(file);
    AddAllSpec(Known(file), entries);
    if |all| > MAX_ENTRIES {
      var n := |all| - KEEP_ON_TRIM;
      var m :| 0 <= m < |all[n..]| && all[n..][m] == all[i];
      assert all[n + m] == all[i] && n + m == i;
      assert all[n..][k - n] == all[k];
    }
  }

  // ---- the file ------------------------------------------------------------

  class OwnedFile<T(==)> {
    var content: Content<T>

    constructor ()
      ensures content == Missing
    {
      content := Missing;
    }

    /** Create an empty file unless there is one, be it corrupt. When the lock or the
        write fails, nothing happens and nobody is told. */
    method EnsureFile(session: bool, writeOk: bool)
      modifies this
      ensures content == if session && old(content).Missing? && writeOk then Listed([]) else old(content)
    {
      if !session || !content.Missing? {
        return;
      }
      if writeOk {
        content := Listed([]);
      }
    }

    static method ToSet(arr: seq<T>) returns (elements: seq<T>)
      ensures elements == AddAll([], arr)
    {
      elements := Extended([], arr);
    }

    static method Extended(start: seq<T>, entries: seq<T>) returns (elements: seq<T>)
      ensures elements == AddAll(start, entries)
    {
      elements := start;
      for i := 0 to |entries|
        invariant elements == AddAll(start, entries[..i])
      {
        assert entries[..i + 1][..i] == entries[..i];
        if entries[i] !in elements {
          elements := elements + [entries[i]];
        }
      }
      assert entries[..|entries|] == entries;
    }

    /** Append under the lock; a session without an id or an empty batch is ignored,
        and a lock or write that fails is swallowed. */
    method Record(session: bool, entries: seq<T>, writeOk: bool)
      modifies this
      ensures content ==
              if session && entries != [] && writeOk then Listed(Recorded(old(content), entries)) else old(content)
    {
      if !session || entries == [] {
        return;
      }
      var arr: seq<T> := [];
      if content.Listed? {
        arr := content.entries;
      }
      var elements := ToSet(arr);
      elements := Extended(elements, entries);
      if |elements| > MAX_ENTRIES {
        elements := elements[|elements| - KEEP_ON_TRIM..];
      }
      if writeOk {
        content := Listed(elements);
      }
    }

    /** None when there is no readable data, unlike a file that says "owns nothing". */
    method Read() returns (owned: Option<set<T>>)
      ensures owned.Some? <==> content.Listed?
      ensures owned.Some? ==> forall x :: x in owned.value <==> x in content.entries
    {
      owned := if content.Listed? then Some(set x | x in content.entries) else None;
    }
  }
}
