/** parseModelLimits (cmd/app/config.go): RATE_LIMIT_MODELS=model:rps,... */
module ModelLimits {
  import opened Prelude
  import opened GoStrings
  import opened EntryLists

  datatype LimitError = MissingLimit(entry: string) | NotPositive(entry: string)

  /** A model with its limit. */
  type Limit = Setting<int>

  type Answer = Result<Option<map<string, int>>, LimitError>

  /** What one trimmed entry says, split at its last colon. */
  function ReadEntry(entry: string): Result<Limit, LimitError> {
    var idx := LastIndex(entry, ':');
    if idx < 0 then Err(MissingLimit(entry))
    else
      var n := Atoi(entry[idx + 1..]);
      if n.None? || n.value <= 0 then Err(NotPositive(entry)) else Ok(Setting(entry[..idx], n.value))
  }

  /** An entry is read as p exactly when it is the model, a colon, and a colon-free positive number. */
  lemma ReadEntryIff(entry: string, p: Limit)
    ensures ReadEntry(entry) == Ok(p) <==> exists digits: string :: SpellsLimit(entry, p, digits)
  {
    if ReadEntry(entry) == Ok(p) {
      var idx := LastIndex(entry, ':');
      var digits := entry[idx + 1..];
      assert entry == entry[..idx] + [':'] + digits;
      assert SpellsLimit(entry, p, digits);
    }
    if digits: string :| SpellsLimit(entry, p, digits) {
      SpeltIsRead(entry, p, digits);
    }
  }

  lemma SpeltIsRead(entry: string, p: Limit, digits: string)
    requires SpellsLimit(entry, p, digits)
    ensures ReadEntry(entry) == Ok(p)
  {
    assert entry == p.key + [':'] + digits;
    LastIndexOfJoined(p.key, ':', digits);
    assert entry[..|p.key|] == p.key && entry[|p.key| + 1..] == digits;
  }

  /** Why an entry is turned down: it holds no colon, or what follows its last one is no positive number. */
  lemma ReadEntryRefusals(entry: string)
    ensures ReadEntry(entry) == Err(MissingLimit(entry)) <==> ':' !in entry
    ensures ReadEntry(entry) == Err(NotPositive(entry)) <==>
      ':' in entry && !exists p, digits: string :: SpellsLimit(entry, p, digits)
    ensures ReadEntry(entry).Err? ==> ReadEntry(entry).error in {MissingLimit(entry), NotPositive(entry)}
  {
    var idx := LastIndex(entry, ':');
    if ReadEntry(entry).Ok? {
      ReadEntryIff(entry, ReadEntry(entry).value);
    }
    if p, digits: string :| SpellsLimit(entry, p, digits) {
      SpeltIsRead(entry, p, digits);
    }
    assert idx >= 0 ==> entry[idx] == ':';
  }

  /** The decimal digits of n after z zeros. */
  predicate Padded(digits: string, n: int, z: nat) {
    0 < n <= MAX_INT64 && z <= |digits| && (forall i :: 0 <= i < z ==> digits[i] == '0') && digits[z..] == FormatInt(n)
  }

  /** Exactly the positive numbers of 64 bits are read: any zeros before their digits, any plus sign before those. */
  lemma PositiveNumbers(text: string, n: int)
    ensures Atoi(text) == Some(n) && n > 0 <==>
      exists z: nat :: Padded(text, n, z) || (text != "" && text[0] == '+' && Padded(text[1..], n, z))
  {
    var signed := text != "" && text[0] == '+';
    var digits := if signed then text[1..] else text;
    if Atoi(text) == Some(n) && n > 0 {
      assert text[0] != '-';
      var z := DigitsAreCanonical(digits);
      assert Padded(digits, n, z);
    }
    if z: nat :| Padded(text, n, z) || (text != "" && text[0] == '+' && Padded(text[1..], n, z)) {
      if Padded(text, n, z) {
        PaddedIsRead(text, n, z);
        assert IsDigit(text[0]);
      } else {
        PaddedIsRead(text[1..], n, z);
      }
    }
  }

  lemma PaddedIsRead(digits: string, n: int, z: nat)
    requires Padded(digits, n, z)
    ensures forall c :: c in digits ==> IsDigit(c)
    ensures digits != [] && DigitsValue(digits) == n
  {
    assert digits == digits[..z] + digits[z..];
    forall c | c in digits ensures IsDigit(c) {
      assert c in digits[..z] || c in digits[z..];
      assert IsDigit('0');
    }
    ZerosAddNothing(digits, z);
    DigitsValueOfDigits(n);
  }

  predicate SpellsLimit(entry: string, p: Limit, digits: string) {
    entry == p.key + ":" + digits && ':' !in digits && Atoi(digits) == Some(p.value) && p.value > 0
  }

  predicate AllReadable(entries: seq<string>) {
    forall i :: 0 <= i < |entries| ==> ReadEntry(entries[i]).Ok?
  }

  function ReadAll(entries: seq<string>): (list: seq<Limit>)
    requires AllReadable(entries)
    ensures |list| == |entries|
  {
    seq(|entries|, i requires 0 <= i < |entries| => ReadEntry(entries[i]).value)
  }

  /** list[i] is the last in the list for its model. */
  predicate LastFor(list: seq<Limit>, i: nat, model: string) {
    i < |list| && list[i].key == model && forall k :: i < k < |list| ==> list[k].key != model
  }

  /** The map gives every listed model the limit listed last for it, and holds no other model. */
  ghost predicate LastWins(list: seq<Limit>, limits: map<string, int>) {
    && (forall i :: 0 <= i < |list| ==> list[i].key in limits)
    && (forall model :: model in limits ==> exists i: nat :: LastFor(list, i, model) && limits[model] == list[i].value)
  }

  lemma LastWinsAppend(list: seq<Limit>, limits: map<string, int>, p: Limit)
    requires LastWins(list, limits)
    ensures LastWins(list + [p], limits[p.key := p.value])
  {
    var longer, updated := list + [p], limits[p.key := p.value];
    forall model | model in updated
      ensures exists i: nat :: LastFor(longer, i, model) && updated[model] == longer[i].value
    {
      if model == p.key {
        assert LastFor(longer, |list|, model);
      } else {
        var i: nat :| LastFor(list, i, model) && limits[model] == list[i].value;
        assert LastFor(longer, i, model);
      }
    }
  }

  /** LastWins pins the map down. */
  lemma LastWinsIsUnique(list: seq<Limit>, a: map<string, int>, b: map<string, int>)
    requires LastWins(list, a) && LastWins(list, b)
    ensures a == b
  {
    forall model ensures model in a <==> model in b {}
    forall model | model in a && model in b ensures a[model] == b[model] {
      var i: nat :| LastFor(list, i, model) && a[model] == list[i].value;
      var j: nat :| LastFor(list, j, model) && b[model] == list[j].value;
      assert i == j;
    }
  }

  /** What parsing raw must answer: nil for "", the first unreadable entry's error, or the last-wins map. */
  ghost predicate Parses(raw: string, result: Answer) {
    var entries := Entries(Split(raw, ','));
    if raw == "" then result == Ok(None)
    else if AllReadable(entries) then
      result.Ok? && result.value.Some? && LastWins(ReadAll(entries), result.value.value)
    else
      exists i: nat :: FirstUnreadable(entries, i) && result == Err(ReadEntry(entries[i]).error)
  }

  predicate FirstUnreadable(entries: seq<string>, i: nat) {
    i < |entries| && AllReadable(entries[..i]) && ReadEntry(entries[i]).Err?
  }

  lemma FirstUnreadableIsUnique(entries: seq<string>, i: nat, k: nat)
    requires FirstUnreadable(entries, i) && FirstUnreadable(entries, k)
    ensures i == k
  {}

  /** The answer to each setting is determined. */
  lemma AnswerIsDetermined(raw: string, a: Answer, b: Answer)
    requires Parses(raw, a) && Parses(raw, b)
    ensures a == b
  {
    var entries := Entries(Split(raw, ','));
    if raw != "" {
      if AllReadable(entries) {
        LastWinsIsUnique(ReadAll(entries), a.value.value, b.value.value);
      } else {
        var i: nat :| FirstUnreadable(entries, i) && a == Err(ReadEntry(entries[i]).error);
        var k: nat :| FirstUnreadable(entries, k) && b == Err(ReadEntry(entries[k]).error);
        FirstUnreadableIsUnique(entries, i, k);
      }
    }
  }

  /** The loop accepts one more entry. */
  lemma ReadOneMore(done: seq<string>, limits: map<string, int>, entry: string, p: Limit)
    requires AllReadable(done) && LastWins(ReadAll(done), limits)
    requires ReadEntry(entry) == Ok(p)
    ensures AllReadable(done + [entry]) && LastWins(ReadAll(done + [entry]), limits[p.key := p.value])
  {
    LastWinsAppend(ReadAll(done), limits, p);
    assert ReadAll(done + [entry]) == ReadAll(done) + [p];
  }

  /** The loop has read `limits` from the first i pieces, all of them readable. */
  ghost predicate SoFar(pieces: seq<string>, i: nat, limits: map<string, int>) {
    && i <= |pieces| && AllReadable(Entries(pieces[..i]))
    && LastWins(ReadAll(Entries(pieces[..i])), limits)
  }

  lemma SkipPiece(pieces: seq<string>, i: nat, limits: map<string, int>)
    requires i < |pieces| && SoFar(pieces, i, limits) && TrimSpace(pieces[i]) == ""
    ensures SoFar(pieces, i + 1, limits)
  {
    EntriesStep(pieces, i);
    assert OneEntry(pieces[i]) == [];
    assert Entries(pieces[..i + 1]) == Entries(pieces[..i]);
  }

  lemma TakePiece(pieces: seq<string>, i: nat, limits: map<string, int>, p: Limit)
    requires i < |pieces| && SoFar(pieces, i, limits) && TrimSpace(pieces[i]) != ""
    requires ReadEntry(TrimSpace(pieces[i])) == Ok(p)
    ensures SoFar(pieces, i + 1, limits[p.key := p.value])
  {
    EntriesStep(pieces, i);
    ReadOneMore(Entries(pieces[..i]), limits, TrimSpace(pieces[i]), p);
  }

  /** The loop stops at the first unreadable entry. */
  lemma RefusePiece(raw: string, i: nat, limits: map<string, int>, entry: string)
    requires raw != "" && i < |Split(raw, ',')| && SoFar(Split(raw, ','), i, limits)
    requires entry == TrimSpace(Split(raw, ',')[i]) && entry != "" && ReadEntry(entry).Err?
    ensures Parses(raw, Err(ReadEntry(entry).error))
  {
    var pieces := Split(raw, ',');
    EntriesStep(pieces, i);
    StopsAt(Entries(pieces), Entries(pieces[..i]), entry);
  }

  lemma StopsAt(entries: seq<string>, done: seq<string>, entry: string)
    requires done + [entry] <= entries
    requires AllReadable(done) && ReadEntry(entry).Err?
    ensures FirstUnreadable(entries, |done|) && entries[|done|] == entry && !AllReadable(entries)
  {
    assert (done + [entry])[|done|] == entry;
    assert entries[..|done|] == done;
  }

  /** config.go:187-209 */
  method ParseModelLimits(raw: string) returns (result: Answer)
    ensures Parses(raw, result)
  {
    if raw == "" {
      return Ok(None);
    }
    var limits: map<string, int> := map[];
    var pieces := Split(raw, ',');
    var i: nat := 0;
    while i < |pieces|
      invariant SoFar(pieces, i, limits)
    {
      var entry := TrimSpace(pieces[i]);
      if entry == "" {
        SkipPiece(pieces, i, limits);
        i := i + 1;
        continue;
      }
      var idx := LastIndex(entry, ':');
      if idx < 0 {
        RefusePiece(raw, i, limits, entry);
        return Err(MissingLimit(entry));
      }
      var model := entry[..idx];
      var n := Atoi(entry[idx + 1..]);
      if n.None? || n.value <= 0 {
        RefusePiece(raw, i, limits, entry);
        return Err(NotPositive(entry));
      }
      TakePiece(pieces, i, limits, Setting(model, n.value));
      limits := limits[model := n.value];
      i := i + 1;
    }
    assert pieces[..i] == pieces;
    return Ok(Some(limits));
  }

  // ------------------------------------------------------------- round trips

  /** The limits that can be written down: no comma, no leading white space, a positive 64-bit number. */
  predicate Printable(p: Limit) {
    ',' !in p.key && (p.key != "" ==> !IsSpace(p.key[0])) && 1 <= p.value <= MAX_INT64
  }

  predicate AllPrintable(list: seq<Limit>) {
    forall i :: 0 <= i < |list| ==> Printable(list[i])
  }

  function PrintEntry(p: Limit): string
    requires p.value >= 0
  {
    p.key + ":" + Digits(p.value)
  }

  function PrintEntries(list: seq<Limit>): (entries: seq<string>)
    requires AllPrintable(list)
    ensures |entries| == |list|
  {
    seq(|list|, i requires 0 <= i < |list| => PrintEntry(list[i]))
  }

  function Print(list: seq<Limit>): string
    requires AllPrintable(list)
  {
    Join(PrintEntries(list), ',')
  }

  lemma PrintedEntryIsAnEntry(p: Limit)
    requires Printable(p)
    ensures PrintEntry(p) != "" && Trimmed(PrintEntry(p)) && ',' !in PrintEntry(p)
  {
    var s, digits := PrintEntry(p), Digits(p.value);
    var last := digits[|digits| - 1];
    assert s[|s| - 1] == last && IsDigit(last);
    assert s[0] == if p.key != "" then p.key[0] else ':';
  }

  lemma PrintedEntryReadsBack(p: Limit)
    requires Printable(p)
    ensures ReadEntry(PrintEntry(p)) == Ok(p)
  {
    AtoiOfDigits(p.value);
    assert SpellsLimit(PrintEntry(p), p, Digits(p.value));
    SpeltIsRead(PrintEntry(p), p, Digits(p.value));
  }

  /** Parsing what was printed reads back the list, so the last entry of a repeated model wins. */
  lemma PrintedListReadsBack(list: seq<Limit>)
    requires list != [] && AllPrintable(list)
    ensures var entries := Entries(Split(Print(list), ','));
            Print(list) != "" && AllReadable(entries) && ReadAll(entries) == list
  {
    var entries := PrintEntries(list);
    forall i | 0 <= i < |list|
      ensures entries[i] != "" && Trimmed(entries[i]) && ',' !in entries[i] && ReadEntry(entries[i]) == Ok(list[i])
    {
      PrintedEntryIsAnEntry(list[i]);
      PrintedEntryReadsBack(list[i]);
    }
    JoinedEntriesReadBack(entries);
  }

  lemma EnumerationWins(list: seq<Limit>, limits: map<string, int>)
    requires Enumerates(list, limits)
    ensures LastWins(list, limits)
  {
    forall model | model in limits
      ensures exists i: nat :: LastFor(list, i, model) && limits[model] == list[i].value
    {
      var i: nat :| i < |list| && list[i] == Setting(model, limits[model]);
      assert LastFor(list, i, model);
    }
  }

  /** Printing a non-empty map of printable limits, in any order, and parsing gives the map. */
  lemma RoundTrip(limits: map<string, int>, list: seq<Limit>, result: Answer)
    requires limits != map[] && Enumerates(list, limits)
    requires AllPrintable(list)
    requires Parses(Print(list), result)
    ensures result == Ok(Some(limits))
  {
    var model :| model in limits;
    assert Setting(model, limits[model]) in list;
    PrintedListReadsBack(list);
    EnumerationWins(list, limits);
    LastWinsIsUnique(list, limits, result.value.value);
  }

  /** In particular any one printable limit can be configured. */
  lemma OneLimitParses(p: Limit)
    requires Printable(p)
    ensures Parses(Print([p]), Ok(Some(map[p.key := p.value])))
  {
    PrintedListReadsBack([p]);
    EnumerationWins([p], map[p.key := p.value]);
  }

  /** Conversely every limit the parser returns is printable: the round trip covers its whole range. */
  lemma ParsedLimitsArePrintable(raw: string, limits: map<string, int>, model: string)
    requires Parses(raw, Ok(Some(limits))) && model in limits
    ensures Printable(Setting(model, limits[model]))
  {
    var entries := Entries(Split(raw, ','));
    var i: nat :| LastFor(ReadAll(entries), i, model) && limits[model] == ReadAll(entries)[i].value;
    EntriesOfListAreTrimmed(raw);
    assert entries[i] in entries;
    var idx := LastIndex(entries[i], ':');
    assert model == entries[i][..idx];
  }

  /** So printing any non-empty result, in any order, and parsing again changes nothing. */
  lemma ReparsingIsIdentity(raw: string, limits: map<string, int>, list: seq<Limit>)
    requires Parses(raw, Ok(Some(limits))) && limits != map[] && Enumerates(list, limits)
    ensures AllPrintable(list)
    ensures forall result :: Parses(Print(list), result) ==> result == Ok(Some(limits))
  {
    forall i | 0 <= i < |list| ensures Printable(list[i]) {
      ParsedLimitsArePrintable(raw, limits, list[i].key);
    }
    forall result | Parses(Print(list), result) ensures result == Ok(Some(limits)) {
      RoundTrip(limits, list, result);
    }
  }
}
