/**
 * The shape shared by the gateway's comma-separated settings (cmd/app/config.go:192-196,
 * internal/auth/source.go:50-54): split at commas, trim each piece, skip the blank ones.
 */
module EntryLists {
  import opened GoStrings

  /** The pieces that are not blank, trimmed, in order. */
  function Entries(pieces: seq<string>): (es: seq<string>)
    ensures |es| <= |pieces|
  {
    if pieces == [] then []
    else Entries(pieces[..|pieces| - 1]) + OneEntry(pieces[|pieces| - 1])
  }

  function OneEntry(piece: string): seq<string> {
    if Blank(piece) then [] else [TrimSpace(piece)]
  }

  lemma {:induction false} EntriesOfPrefix(pieces: seq<string>, i: nat)
    requires i <= |pieces|
    ensures Entries(pieces[..i]) <= Entries(pieces)
  {
    if i == |pieces| {
      assert pieces[..i] == pieces;
    } else {
      EntriesOfPrefix(pieces[..|pieces| - 1], i);
      assert pieces[..|pieces| - 1][..i] == pieces[..i];
    }
  }

  /** A scan that has seen i pieces and looks at one more. */
  lemma EntriesStep(pieces: seq<string>, i: nat)
    requires i < |pieces|
    ensures Entries(pieces[..i + 1]) == Entries(pieces[..i]) + OneEntry(pieces[i])
    ensures Entries(pieces[..i]) + OneEntry(pieces[i]) <= Entries(pieces)
  {
    assert pieces[..i + 1][..i] == pieces[..i];
    EntriesOfPrefix(pieces, i + 1);
  }

  /** Entries that are trimmed and not empty are kept as they are. */
  lemma {:induction false} TrimmedEntriesAreKept(pieces: seq<string>)
    requires forall i :: 0 <= i < |pieces| ==> pieces[i] != "" && Trimmed(pieces[i])
    ensures Entries(pieces) == pieces
  {
    if pieces != [] {
      var front, last := pieces[..|pieces| - 1], pieces[|pieces| - 1];
      TrimmedEntriesAreKept(front);
      TrimmedIsFixed(last);
      assert Entries(pieces) == front + [last];
    }
  }

  /** Joining such entries with commas and splitting again gives them back. */
  lemma JoinedEntriesReadBack(entries: seq<string>)
    requires entries != []
    requires forall i :: 0 <= i < |entries| ==> entries[i] != "" && Trimmed(entries[i]) && ',' !in entries[i]
    ensures Join(entries, ',') != ""
    ensures Entries(Split(Join(entries, ','), ',')) == entries
  {
    SplitJoin(entries, ',');
    TrimmedEntriesAreKept(entries);
    assert entries[0] != "" && Split("", ',') == [""];
  }

  /** No entry is empty, holds a comma, or has white space at an end. */
  lemma {:induction false} EntriesAreTrimmed(pieces: seq<string>)
    requires forall p :: p in pieces ==> ',' !in p
    ensures forall e :: e in Entries(pieces) ==> e != "" && ',' !in e && Trimmed(e)
  {
    if pieces != [] {
      var last := pieces[|pieces| - 1];
      EntriesAreTrimmed(pieces[..|pieces| - 1]);
      assert last in pieces;
      TrimSpaceTrims(last);
    }
  }

  lemma EntriesOfListAreTrimmed(raw: string)
    ensures forall e :: e in Entries(Split(raw, ',')) ==> e != "" && ',' !in e && Trimmed(e)
  {
    SplitPiecesLackSep(raw, ',');
    EntriesAreTrimmed(Split(raw, ','));
  }

  /** What one entry sets: a name and its value. */
  datatype Setting<+V> = Setting(key: string, value: V)

  /** The list names every key of the map once, with its value, in some order. */
  predicate Enumerates<V(==)>(list: seq<Setting<V>>, m: map<string, V>) {
    && (forall i, k :: 0 <= i < k < |list| ==> list[i].key != list[k].key)
    && (forall i :: 0 <= i < |list| ==> list[i].key in m && m[list[i].key] == list[i].value)
    && (forall key :: key in m ==> Setting(key, m[key]) in list)
  }

  lemma EnumeratesOneMap<V>(list: seq<Setting<V>>, a: map<string, V>, b: map<string, V>)
    requires Enumerates(list, a) && Enumerates(list, b)
    ensures a == b
  {
    forall key ensures key in a <==> key in b {
      if key in a {
        var i :| 0 <= i < |list| && list[i] == Setting(key, a[key]);
      }
      if key in b {
        var i :| 0 <= i < |list| && list[i] == Setting(key, b[key]);
      }
    }
    forall key | key in a && key in b ensures a[key] == b[key] {
      assert Setting(key, a[key]) in list;
    }
  }
}
