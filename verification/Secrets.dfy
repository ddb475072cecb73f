/** ParseStaticSecrets (internal/auth/source.go): GATEWAY_SECRETS=ref=value,... */
module Secrets {
  import opened Prelude
  import opened GoStrings
  import opened EntryLists

  datatype SecretError = Malformed(entry: string) | Duplicate(ref: string)

  type Secret = Setting<string>

  type Answer = Result<map<string, string>, SecretError>

  /** What one trimmed entry says, cut at its first '='; None without a reference. */
  function ReadEntry(entry: string): Option<Secret> {
    var cut := Cut(entry, '=');
    if !cut.found || Blank(cut.before) then None else Some(Setting(TrimSpace(cut.before), cut.after))
  }

  /** An entry is read exactly when it is a non-blank, '='-free reference, a '=', and any value. */
  lemma ReadEntryIff(entry: string, p: Secret)
    ensures ReadEntry(entry) == Some(p) <==> exists before: string :: SpellsSecret(entry, p, before)
  {
    if ReadEntry(entry) == Some(p) {
      var cut := Cut(entry, '=');
      assert entry == cut.before + "=" + cut.after;
      assert SpellsSecret(entry, p, cut.before);
    }
    if before: string :| SpellsSecret(entry, p, before) {
      assert entry == before + ['='] + p.value;
      IndexOfJoined(before, '=', p.value);
      assert entry[..|before|] == before && entry[|before| + 1..] == p.value;
    }
  }

  predicate SpellsSecret(entry: string, p: Secret, before: string) {
    entry == before + "=" + p.value && '=' !in before && !Blank(before) && p.key == TrimSpace(before)
  }

  predicate AllReadable(entries: seq<string>) {
    forall i :: 0 <= i < |entries| ==> ReadEntry(entries[i]).Some?
  }

  function ReadAll(entries: seq<string>): (list: seq<Secret>)
    requires AllReadable(entries)
    ensures |list| == |entries|
  {
    seq(|entries|, i requires 0 <= i < |entries| => ReadEntry(entries[i]).value)
  }

  predicate Distinct(list: seq<Secret>) {
    forall i, k :: 0 <= i < k < |list| ==> list[i].key != list[k].key
  }

  /** Every entry has a reference, and the trimmed references are pairwise distinct. */
  predicate Acceptable(entries: seq<string>) {
    AllReadable(entries) && Distinct(ReadAll(entries))
  }

  /** After the acceptable entries `done`, this entry cannot be accepted, for the reason given. */
  predicate Offends(done: seq<string>, entry: string, error: SecretError)
    requires AllReadable(done)
  {
    match ReadEntry(entry)
    case None => error == Malformed(entry)
    case Some(s) => error == Duplicate(s.key) && exists k :: 0 <= k < |done| && ReadAll(done)[k].key == s.key
  }

  /** Entry i is the first that cannot be accepted. */
  predicate FirstOffending(entries: seq<string>, i: nat, error: SecretError) {
    i < |entries| && Acceptable(entries[..i]) && Offends(entries[..i], entries[i], error)
  }

  /** What parsing raw must answer: the map of exactly its secrets, or the first offending entry. */
  ghost predicate Parses(raw: string, result: Answer) {
    var entries := Entries(Split(raw, ','));
    if Acceptable(entries) then result.Ok? && Enumerates(ReadAll(entries), result.value)
    else result.Err? && exists i: nat :: FirstOffending(entries, i, result.error)
  }

  /** The loop accepts one more entry. */
  lemma ReadOneMore(done: seq<string>, values: map<string, string>, entry: string, p: Secret)
    requires Acceptable(done) && Enumerates(ReadAll(done), values)
    requires ReadEntry(entry) == Some(p) && p.key !in values
    ensures Acceptable(done + [entry]) && Enumerates(ReadAll(done + [entry]), values[p.key := p.value])
  {
    var list, longer := ReadAll(done), ReadAll(done + [entry]);
    assert longer == list + [p];
    assert longer[|list|] == p;
    forall key | key in values ensures Setting(key, values[key]) in longer {
      assert Setting(key, values[key]) in list;
    }
  }

  lemma RepeatOffends(done: seq<string>, values: map<string, string>, entry: string, ref: string)
    requires Acceptable(done) && Enumerates(ReadAll(done), values)
    requires ref in values && ReadEntry(entry).Some? && ReadEntry(entry).value.key == ref
    ensures Offends(done, entry, Duplicate(ref))
  {
    assert Setting(ref, values[ref]) in ReadAll(done);
  }

  /** An offending entry makes the whole list unacceptable. */
  lemma OffendingIsNotAcceptable(entries: seq<string>, i: nat, error: SecretError)
    requires FirstOffending(entries, i, error)
    ensures !Acceptable(entries)
  {
    if AllReadable(entries) {
      var k :| 0 <= k < i && ReadAll(entries[..i])[k].key == ReadEntry(entries[i]).value.key;
      assert entries[..i][k] == entries[k];
      assert ReadAll(entries)[k].key == ReadAll(entries)[i].key;
    }
  }

  lemma FirstOffendingIsUnique(entries: seq<string>, i: nat, k: nat, a: SecretError, b: SecretError)
    requires FirstOffending(entries, i, a) && FirstOffending(entries, k, b)
    ensures i <= k
  {
    if k < i {
      assert entries[..i][..k] == entries[..k];
      OffendingIsNotAcceptable(entries[..i], k, b);
    }
  }

  /** The answer to each setting is determined. */
  lemma AnswerIsDetermined(raw: string, a: Answer, b: Answer)
    requires Parses(raw, a) && Parses(raw, b)
    ensures a == b
  {
    var entries := Entries(Split(raw, ','));
    if Acceptable(entries) {
      EnumeratesOneMap(ReadAll(entries), a.value, b.value);
    } else {
      var i: nat :| FirstOffending(entries, i, a.error);
      var k: nat :| FirstOffending(entries, k, b.error);
      FirstOffendingIsUnique(entries, i, k, a.error, b.error);
      FirstOffendingIsUnique(entries, k, i, b.error, a.error);
    }
  }

  /** The loop stops at the first entry that cannot be accepted. */
  lemma StopsAt(raw: string, done: seq<string>, entry: string, error: SecretError)
    requires done + [entry] <= Entries(Split(raw, ','))
    requires Acceptable(done) && Offends(done, entry, error)
    ensures Parses(raw, Err(error))
  {
    var entries := Entries(Split(raw, ','));
    assert (done + [entry])[|done|] == entry;
    assert entries[..|done|] == done;
    assert FirstOffending(entries, |done|, error);
    OffendingIsNotAcceptable(entries, |done|, error);
  }

  /** The loop has read `values` from the first i pieces, all of them acceptable. */
  ghost predicate SoFar(pieces: seq<string>, i: nat, values: map<string, string>) {
    && i <= |pieces| && Acceptable(Entries(pieces[..i]))
    && Enumerates(ReadAll(Entries(pieces[..i])), values)
  }

  lemma SkipPiece(pieces: seq<string>, i: nat, values: map<string, string>)
    requires i < |pieces| && SoFar(pieces, i, values) && TrimSpace(pieces[i]) == ""
    ensures SoFar(pieces, i + 1, values)
  {
    EntriesStep(pieces, i);
    assert OneEntry(pieces[i]) == [];
    assert Entries(pieces[..i + 1]) == Entries(pieces[..i]);
  }

  lemma TakePiece(pieces: seq<string>, i: nat, values: map<string, string>, p: Secret)
    requires i < |pieces| && SoFar(pieces, i, values) && TrimSpace(pieces[i]) != ""
    requires ReadEntry(TrimSpace(pieces[i])) == Some(p) && p.key !in values
    ensures SoFar(pieces, i + 1, values[p.key := p.value])
  {
    EntriesStep(pieces, i);
    ReadOneMore(Entries(pieces[..i]), values, TrimSpace(pieces[i]), p);
  }

  lemma RefuseMalformed(raw: string, i: nat, values: map<string, string>, entry: string)
    requires i < |Split(raw, ',')| && SoFar(Split(raw, ','), i, values)
    requires entry == TrimSpace(Split(raw, ',')[i]) && entry != "" && ReadEntry(entry).None?
    ensures Parses(raw, Err(Malformed(entry)))
  {
    EntriesStep(Split(raw, ','), i);
    StopsAt(raw, Entries(Split(raw, ',')[..i]), entry, Malformed(entry));
  }

  lemma RefuseRepeat(raw: string, i: nat, values: map<string, string>, entry: string, ref: string)
    requires i < |Split(raw, ',')| && SoFar(Split(raw, ','), i, values)
    requires entry == TrimSpace(Split(raw, ',')[i]) && entry != ""
    requires ref in values && ReadEntry(entry).Some? && ReadEntry(entry).value.key == ref
    ensures Parses(raw, Err(Duplicate(ref)))
  {
    var done := Entries(Split(raw, ',')[..i]);
    EntriesStep(Split(raw, ','), i);
    RepeatOffends(done, values, entry, ref);
    StopsAt(raw, done, entry, Duplicate(ref));
  }

  /** source.go:48-66; the result is the map the source is built from. */
  method ParseStaticSecrets(raw: string) returns (result: Answer)
    ensures Parses(raw, result)
  {
    var values: map<string, string> := map[];
    var pieces := Split(raw, ',');
    var i: nat := 0;
    while i < |pieces|
      invariant SoFar(pieces, i, values)
    {
      var entry := TrimSpace(pieces[i]);
      if entry == "" {
        SkipPiece(pieces, i, values);
        i := i + 1;
        continue;
      }
      var cut := Cut(entry, '=');
      var ref := TrimSpace(cut.before);
      if !cut.found || ref == "" {
        RefuseMalformed(raw, i, values, entry);
        return Err(Malformed(entry));
      }
      if ref in values {
        RefuseRepeat(raw, i, values, entry, ref);
        return Err(Duplicate(ref));
      }
      TakePiece(pieces, i, values, Setting(ref, cut.after));
      values := values[ref := cut.after];
      i := i + 1;
    }
    assert pieces[..i] == pieces;
    return Ok(values);
  }

  // ------------------------------------------------------------- round trips

  /** The secrets that can be written down. */
  predicate Printable(p: Secret) {
    && p.key != "" && Trimmed(p.key) && ',' !in p.key && '=' !in p.key
    && ',' !in p.value && (p.value != "" ==> !IsSpace(p.value[|p.value| - 1]))
  }

  predicate AllPrintable(list: seq<Secret>) {
    forall i :: 0 <= i < |list| ==> Printable(list[i])
  }

  function PrintEntry(p: Secret): string {
    p.key + "=" + p.value
  }

  function PrintEntries(list: seq<Secret>): (entries: seq<string>)
    ensures |entries| == |list|
  {
    seq(|list|, i requires 0 <= i < |list| => PrintEntry(list[i]))
  }

  function Print(list: seq<Secret>): string {
    Join(PrintEntries(list), ',')
  }

  lemma PrintedEntryReadsBack(p: Secret)
    requires Printable(p)
    ensures Trimmed(PrintEntry(p)) && ',' !in PrintEntry(p)
    ensures ReadEntry(PrintEntry(p)) == Some(p)
  {
    var s := PrintEntry(p);
    assert s[0] == p.key[0];
    assert s[|s| - 1] == if p.value == "" then '=' else p.value[|p.value| - 1];
    IndexOfJoined(p.key, '=', p.value);
    assert s[|p.key| + 1..] == p.value && s[..|p.key|] == p.key;
    TrimmedIsFixed(p.key);
  }

  /** Parsing what was printed reads back the list. */
  lemma PrintedListReadsBack(list: seq<Secret>)
    requires AllPrintable(list)
    ensures var entries := Entries(Split(Print(list), ','));
            AllReadable(entries) && ReadAll(entries) == list
  {
    var entries := PrintEntries(list);
    forall i | 0 <= i < |list|
      ensures entries[i] != "" && Trimmed(entries[i]) && ',' !in entries[i] && ReadEntry(entries[i]) == Some(list[i])
    {
      PrintedEntryReadsBack(list[i]);
    }
    if list != [] {
      JoinedEntriesReadBack(entries);
    } else {
      assert Entries([""]) == Entries([]) + OneEntry("");
    }
  }

  /** Printing a map of printable secrets, in any order, and parsing gives the map; even the empty one. */
  lemma RoundTrip(values: map<string, string>, list: seq<Secret>, result: Answer)
    requires Enumerates(list, values) && AllPrintable(list)
    requires Parses(Print(list), result)
    ensures result == Ok(values)
  {
    PrintedListReadsBack(list);
    EnumeratesOneMap(list, values, result.value);
  }

  /** Unlike model limits, a list that repeats a reference is refused, naming it. */
  lemma RepeatIsRefused(list: seq<Secret>, result: Answer)
    requires AllPrintable(list) && Parses(Print(list), result)
    ensures result.Ok? <==> Distinct(list)
    ensures result.Err? ==> result.error.Duplicate? && exists i :: 0 <= i < |list| && list[i].key == result.error.ref
  {
    PrintedListReadsBack(list);
    if result.Err? {
      var entries := Entries(Split(Print(list), ','));
      var i: nat :| FirstOffending(entries, i, result.error);
      assert ReadEntry(entries[i]).value == list[i];
    }
  }

  /** Conversely every secret the parser returns is printable: the round trip covers its whole range. */
  lemma ParsedSecretsArePrintable(raw: string, values: map<string, string>, ref: string)
    requires Parses(raw, Ok(values)) && ref in values
    ensures Printable(Setting(ref, values[ref]))
  {
    var entries := Entries(Split(raw, ','));
    var i :| 0 <= i < |entries| && ReadAll(entries)[i] == Setting(ref, values[ref]);
    EntriesOfListAreTrimmed(raw);
    assert entries[i] in entries;
    var cut := Cut(entries[i], '=');
    TrimSpaceTrims(cut.before);
    assert cut.before == entries[i][..|cut.before|] && cut.after == entries[i][|cut.before| + 1..];
  }
}
