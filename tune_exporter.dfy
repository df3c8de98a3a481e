/**
  The plain-text change log the export panel writes, and the names of the
  two files it offers for download. The clock readings are parameters:
  `generated` is the local date-time text of the Generated line and `iso`
  the ISO-8601 timestamp the change-log filename is cut from.
*/
module TuneExporter {
  import opened Types
  import opened Text

  const Title: string := "Hondata AI Tuning Suggestions\n\n"
  const DisclaimerHeader: string := "--- DISCLAIMER ---\n"
  const DisclaimerText: string :=
    "This file contains AI-generated suggestions. Review these changes carefully before applying them to your base map. Always tune on a dynamometer with a professional tuner. Use at your own risk.\n\n"
  const SummaryHeader: string := "--- SUMMARY ---\n"
  const FuelHeader: string := "--- FUEL ADJUSTMENTS ---\n"
  const IgnitionHeader: string := "--- IGNITION ADJUSTMENTS ---\n"
  const ObservationsHeader: string := "--- OTHER OBSERVATIONS ---\n"

  const NaturallyAspiratedLabel: string := "Naturally Aspirated"
  const BoostedLabel: string := "Boosted"

  /** The wording of the Engine Type line. */
  function EngineTypeLabel(e: EngineType): (text: string)
    ensures text == NaturallyAspiratedLabel <==> e == NaturallyAspirated
    ensures text == BoostedLabel <==> e == Boosted
  {
    assert |BoostedLabel| != |NaturallyAspiratedLabel|;
    if e.NaturallyAspirated? then NaturallyAspiratedLabel else BoostedLabel
  }

  /** `value || fallback` on an optional string: an absent or empty value
      gives the fallback. */
  function OrDefault(value: Option<string>, fallback: string): (r: string)
    ensures value.Some? && value.value != "" ==> r == value.value
    ensures value.None? || value.value == "" ==> r == fallback
  {
    if value.Some? && value.value != "" then value.value else fallback
  }

  function GeneratedLine(generated: string): string {
    "Generated: " + generated + "\n"
  }

  function EngineTypeLine(e: EngineType): string {
    "Engine Type: " + EngineTypeLabel(e) + "\n"
  }

  /** The Base Map line and the blank line after it. */
  function BaseMapLine(baseMapName: Option<string>): string {
    "Base Map: " + OrDefault(baseMapName, "Not provided") + "\n\n"
  }

  /** The title and the three lines describing the export. */
  function Opening(generated: string, e: EngineType, baseMapName: Option<string>): string {
    Title + GeneratedLine(generated) + EngineTypeLine(e) + BaseMapLine(baseMapName)
  }

  /** Everything before the summary: the opening and the disclaimer. */
  function Preamble(generated: string, e: EngineType, baseMapName: Option<string>): string {
    Opening(generated, e, baseMapName) + DisclaimerHeader + DisclaimerText
  }

  function SummaryBlock(summary: string): string {
    SummaryHeader + summary + "\n\n"
  }

  /** The concatenated entries of a list, in list order. */
  function Entries<T>(items: seq<T>, entry: T -> string): string {
    if |items| == 0 then "" else Entries(items[..|items| - 1], entry) + entry(items[|items| - 1])
  }

  /** A section: nothing for an empty list, else its header and entries. */
  function Section<T>(header: string, items: seq<T>, entry: T -> string): string {
    if |items| == 0 then "" else header + Entries(items, entry)
  }

  /** Six labelled lines and a blank line. */
  function FuelEntry(adj: Adjustment): string {
    "RPM Range: " + adj.rpmRange + "\n" +
    "Load: " + adj.loadCondition + "\n" +
    "Current AFR: " + OrDefault(adj.currentAFR, "N/A") + "\n" +
    "Target AFR: " + OrDefault(adj.targetAFR, "N/A") + "\n" +
    "Suggestion: " + adj.suggestion + "\n" +
    "Reason: " + adj.reason + "\n\n"
  }

  /** Four labelled lines and a blank line. */
  function IgnitionEntry(adj: Adjustment): string {
    "RPM Range: " + adj.rpmRange + "\n" +
    "Load: " + adj.loadCondition + "\n" +
    "Suggestion: " + adj.suggestion + "\n" +
    "Reason: " + adj.reason + "\n\n"
  }

  /** Two labelled lines and a blank line. */
  function ObservationEntry(obs: Observation): string {
    "Observation: " + obs.observation + "\n" +
    "Recommendation: " + obs.recommendation + "\n\n"
  }

  /** The whole change log: the blocks in their fixed order. */
  function ChangeLog(s: TuningSuggestions, e: EngineType, baseMapName: Option<string>, generated: string): string {
    Preamble(generated, e, baseMapName) + SummaryBlock(s.summary) +
    Section(FuelHeader, s.fuelAdjustments, FuelEntry) +
    Section(IgnitionHeader, s.ignitionAdjustments, IgnitionEntry) +
    Section(ObservationsHeader, s.otherObservations, ObservationEntry)
  }

  /** Appends the entries of `items` to `content` one by one. */
  method AppendEntries<T>(content: string, items: seq<T>, entry: T -> string) returns (r: string)
    ensures r == content + Entries(items, entry)
  {
    r := content;
    for i := 0 to |items|
      invariant r == content + Entries(items[..i], entry)
    {
      assert items[..i + 1][..i] == items[..i];
      r := r + entry(items[i]);
    }
    assert items[..|items|] == items;
  }

  /** One `if (list.length > 0)` block: the header, then each entry. */
  method AppendSection<T>(content: string, header: string, items: seq<T>, entry: T -> string) returns (r: string)
    ensures r == content + Section(header, items, entry)
  {
    r := content;
    if |items| > 0 {
      r := r + header;
      r := AppendEntries(r, items, entry);
      Associative(content, header, Entries(items, entry));
    }
  }

  /** `generateTuningFileContent` */
  method GenerateTuningFileContent(s: TuningSuggestions, e: EngineType, baseMapName: Option<string>, generated: string)
    returns (content: string)
    ensures content == ChangeLog(s, e, baseMapName, generated)
  {
    content := Title;
    content := content + GeneratedLine(generated);
    content := content + EngineTypeLine(e);
    content := content + BaseMapLine(baseMapName);
    content := content + DisclaimerHeader;
    content := content + DisclaimerText;
    content := content + SummaryBlock(s.summary);
    content := AppendSection(content, FuelHeader, s.fuelAdjustments, FuelEntry);
    content := AppendSection(content, IgnitionHeader, s.ignitionAdjustments, IgnitionEntry);
    content := AppendSection(content, ObservationsHeader, s.otherObservations, ObservationEntry);
  }

  lemma Associative(a: string, b: string, c: string)
    ensures a + b + c == a + (b + c)
  {
  }

  // ---------------------------------------------------------------------
  // Properties of the change log
  // ---------------------------------------------------------------------

  /** The log opens with the title and the Generated, Engine Type and Base
      Map lines, in that order. */
  lemma ChangeLogOpening(s: TuningSuggestions, e: EngineType, baseMapName: Option<string>, generated: string)
    ensures StartsWith(ChangeLog(s, e, baseMapName, generated),
      "Hondata AI Tuning Suggestions\n\n" +
      ("Generated: " + generated + "\n") +
      ("Engine Type: " + (if e == NaturallyAspirated then NaturallyAspiratedLabel else BoostedLabel) + "\n") +
      ("Base Map: " + (if baseMapName.Some? && baseMapName.value != "" then baseMapName.value else "Not provided") + "\n\n"))
  {
    var log := ChangeLog(s, e, baseMapName, generated);
    var preamble := Preamble(generated, e, baseMapName);
    var opening := Opening(generated, e, baseMapName);
    StartsWithAppend(opening + DisclaimerHeader, DisclaimerText);
    StartsWithAppend(opening, DisclaimerHeader);
    StartsWithTrans(preamble, opening + DisclaimerHeader, opening);
    var rest := SummaryBlock(s.summary) +
      Section(FuelHeader, s.fuelAdjustments, FuelEntry) +
      Section(IgnitionHeader, s.ignitionAdjustments, IgnitionEntry) +
      Section(ObservationsHeader, s.otherObservations, ObservationEntry);
    PrefixOfFive(preamble, SummaryBlock(s.summary), Section(FuelHeader, s.fuelAdjustments, FuelEntry),
      Section(IgnitionHeader, s.ignitionAdjustments, IgnitionEntry),
      Section(ObservationsHeader, s.otherObservations, ObservationEntry));
    StartsWithTrans(log, preamble, opening);
  }

  lemma PrefixOfFive(a: string, b: string, c: string, d: string, g: string)
    ensures StartsWith(a + b + c + d + g, a)
  {
    assert (a + b + c + d + g)[..|a|] == a;
  }

  /** No entry is lost: every adjustment and observation of the input has
      its entry somewhere in the log. */
  lemma ChangeLogKeepsEntries(s: TuningSuggestions, e: EngineType, baseMapName: Option<string>, generated: string)
    ensures forall i :: 0 <= i < |s.fuelAdjustments| ==>
      Contains(ChangeLog(s, e, baseMapName, generated), FuelEntry(s.fuelAdjustments[i]))
    ensures forall i :: 0 <= i < |s.ignitionAdjustments| ==>
      Contains(ChangeLog(s, e, baseMapName, generated), IgnitionEntry(s.ignitionAdjustments[i]))
    ensures forall i :: 0 <= i < |s.otherObservations| ==>
      Contains(ChangeLog(s, e, baseMapName, generated), ObservationEntry(s.otherObservations[i]))
  {
    var log := ChangeLog(s, e, baseMapName, generated);
    var head := Preamble(generated, e, baseMapName) + SummaryBlock(s.summary);
    var fuel := Section(FuelHeader, s.fuelAdjustments, FuelEntry);
    var ignition := Section(IgnitionHeader, s.ignitionAdjustments, IgnitionEntry);
    var observations := Section(ObservationsHeader, s.otherObservations, ObservationEntry);
    assert log == head + fuel + ignition + observations;
    forall i | 0 <= i < |s.fuelAdjustments|
      ensures Contains(log, FuelEntry(s.fuelAdjustments[i]))
    {
      SectionHasEntry(FuelHeader, s.fuelAdjustments, FuelEntry, i);
      ContainsWithin(head, fuel, ignition + observations, FuelEntry(s.fuelAdjustments[i]));
      Associative(head + fuel, ignition, observations);
    }
    forall i | 0 <= i < |s.ignitionAdjustments|
      ensures Contains(log, IgnitionEntry(s.ignitionAdjustments[i]))
    {
      SectionHasEntry(IgnitionHeader, s.ignitionAdjustments, IgnitionEntry, i);
      ContainsWithin(head + fuel, ignition, observations, IgnitionEntry(s.ignitionAdjustments[i]));
    }
    forall i | 0 <= i < |s.otherObservations|
      ensures Contains(log, ObservationEntry(s.otherObservations[i]))
    {
      SectionHasEntry(ObservationsHeader, s.otherObservations, ObservationEntry, i);
      ContainsWithin(head + fuel + ignition, observations, "", ObservationEntry(s.otherObservations[i]));
      assert head + fuel + ignition + observations + "" == log;
    }
  }

  lemma SectionHasEntry<T>(header: string, items: seq<T>, entry: T -> string, i: nat)
    requires i < |items|
    ensures Contains(Section(header, items, entry), entry(items[i]))
  {
    var entries := Entries(items, entry);
    var k := |Entries(items[..i], entry)|;
    EntryAt(items, entry, i);
    assert Section(header, items, entry) == header + entries;
    assert (header + entries)[|header| + k..|header| + k + |entry(items[i])|] == entries[k..k + |entry(items[i])|];
    ContainsAt(header + entries, entry(items[i]), |header| + k);
  }

  lemma ContainsWithin(a: string, b: string, c: string, z: string)
    requires Contains(b, z)
    ensures Contains(a + b + c, z)
  {
    var k :| 0 <= k <= |b| - |z| && IsAt(b, z, k);
    assert (a + b + c)[|a| + k..|a| + k + |z|] == b[k..k + |z|];
    ContainsAt(a + b + c, z, |a| + k);
  }

  /** A section is empty exactly when its list is, and otherwise opens with
      its header. */
  lemma SectionPresence<T>(header: string, items: seq<T>, entry: T -> string)
    requires header != ""
    ensures Section(header, items, entry) == "" <==> |items| == 0
    ensures |items| > 0 ==> StartsWith(Section(header, items, entry), header)
  {
    if |items| > 0 {
      StartsWithAppend(header, Entries(items, entry));
    }
  }

  /** Entries of a concatenation are the entries of each part in turn. */
  lemma {:induction false} EntriesConcat<T>(a: seq<T>, b: seq<T>, entry: T -> string)
    ensures Entries(a + b, entry) == Entries(a, entry) + Entries(b, entry)
    decreases |b|
  {
    if |b| == 0 {
      assert a + b == a;
    } else {
      assert (a + b)[..|a + b| - 1] == a + b[..|b| - 1];
      assert (a + b)[|a + b| - 1] == b[|b| - 1];
      EntriesConcat(a, b[..|b| - 1], entry);
    }
  }

  /** Entry `i` sits right after the entries of the items before it, so
      entries appear in list order and none is lost. */
  lemma EntryAt<T>(items: seq<T>, entry: T -> string, i: nat)
    requires i < |items|
    ensures IsAt(Entries(items, entry), entry(items[i]), |Entries(items[..i], entry)|)
  {
    assert items == items[..i] + ([items[i]] + items[i + 1..]);
    EntriesConcat(items[..i], [items[i]] + items[i + 1..], entry);
    EntriesConcat([items[i]], items[i + 1..], entry);
    assert Entries([items[i]], entry) == entry(items[i]) by {
      assert [items[i]][..0] == [];
    }
    var pre := Entries(items[..i], entry);
    var all := Entries(items, entry);
    assert all == pre + entry(items[i]) + Entries(items[i + 1..], entry);
    assert all[|pre|..|pre| + |entry(items[i])|] == entry(items[i]);
  }

  /** Of two entries, the one earlier in the list comes first in the text. */
  lemma EntriesInListOrder<T>(items: seq<T>, entry: T -> string, i: nat, j: nat)
    requires i < j < |items|
    ensures |Entries(items[..i], entry)| + |entry(items[i])| <= |Entries(items[..j], entry)|
  {
    assert items[..j] == items[..i] + ([items[i]] + items[i + 1..j]);
    EntriesConcat(items[..i], [items[i]] + items[i + 1..j], entry);
    EntriesConcat([items[i]], items[i + 1..j], entry);
    assert Entries([items[i]], entry) == entry(items[i]) by {
      assert [items[i]][..0] == [];
    }
  }

  // ---------------------------------------------------------------------
  // File names
  // ---------------------------------------------------------------------

  /** ASCII case-insensitive comparison of one character, which is all the
      `i` flag does for the letters of ".skl". */
  predicate SameLetterIgnoringCase(c: char, lower: char)
    requires 'a' <= lower <= 'z'
  {
    c == lower || c == lower - 'a' + 'A'
  }

  /** The name ends in `.skl`, in any letter case. */
  predicate HasSklSuffix(name: string) {
    |name| >= 4 && name[|name| - 4] == '.' &&
    SameLetterIgnoringCase(name[|name| - 3], 's') &&
    SameLetterIgnoringCase(name[|name| - 2], 'k') &&
    SameLetterIgnoringCase(name[|name| - 1], 'l')
  }

  /** `name.replace(/\.skl$/i, '')`: drops one trailing `.skl`. The result
      is a prefix of the name, four characters shorter exactly when the name
      ends in `.skl` and the whole name otherwise. */
  function StripSklSuffix(name: string): (r: string)
    ensures |r| <= |name| && name == r + name[|r|..]
    ensures |r| == |name| - 4 <==> HasSklSuffix(name)
    ensures |r| == |name| <==> !HasSklSuffix(name)
  {
    if HasSklSuffix(name) then name[..|name| - 4] else name
  }

  /** Only the last suffix goes: a name ending in two `.skl` suffixes, in
      different letter cases, keeps the first. */
  lemma StripSklSuffixOnce(base: string)
    ensures StripSklSuffix(base + ".skl" + ".SKL") == base + ".skl"
    ensures HasSklSuffix(StripSklSuffix(base + ".skl" + ".SKL"))
  {
    var name := base + ".skl" + ".SKL";
    assert HasSklSuffix(name);
    assert name[..|name| - 4] == base + ".skl";
  }

  const ModifiedMapSuffix: string := "_AI_mod.skl"

  /** The download name of the modified map. */
  function SklExportName(baseMapName: string): (r: string)
    ensures EndsWith(r, ModifiedMapSuffix)
    ensures HasSklSuffix(baseMapName) ==> r == baseMapName[..|baseMapName| - 4] + ModifiedMapSuffix
    ensures !HasSklSuffix(baseMapName) ==> r == baseMapName + ModifiedMapSuffix
  {
    EndsWithAppend(StripSklSuffix(baseMapName), ModifiedMapSuffix);
    StripSklSuffix(baseMapName) + ModifiedMapSuffix
  }

  /** Exporting an exported map again strips only the `.skl` the first
      export added: the marker accumulates. */
  lemma SklExportNameStrips(baseMapName: string)
    ensures StripSklSuffix(SklExportName(baseMapName)) == StripSklSuffix(baseMapName) + "_AI_mod"
  {
    var r := SklExportName(baseMapName);
    assert r == StripSklSuffix(baseMapName) + "_AI_mod" + ".skl";
    assert HasSklSuffix(r);
    assert r[..|r| - 4] == StripSklSuffix(baseMapName) + "_AI_mod";
  }

  const ChangeLogPrefix: string := "Hondata_AI_Suggestions_"

  /** The change-log download name: the part of the ISO timestamp before
      its first `T`, between a fixed prefix and `.txt`. */
  function ChangeLogFileName(iso: string): (name: string)
    ensures StartsWith(name, ChangeLogPrefix) && EndsWith(name, ".txt")
  {
    StartsWithAppend(ChangeLogPrefix, Split(iso, 'T')[0] + ".txt");
    EndsWithAppend(ChangeLogPrefix + Split(iso, 'T')[0], ".txt");
    ChangeLogPrefix + Split(iso, 'T')[0] + ".txt"
  }

  /** For a timestamp `date` + "T" + `time`, the name carries the date. */
  lemma ChangeLogFileNameDate(date: string, time: string)
    requires 'T' !in date
    ensures ChangeLogFileName(date + "T" + time) == ChangeLogPrefix + date + ".txt"
  {
    SplitAtSeparator(date, 'T', time);
    assert date + "T" + time == date + ['T'] + time;
  }
}
