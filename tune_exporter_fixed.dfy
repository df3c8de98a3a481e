/**
  The revised export panel: the same change log with numbered entries and
  indented continuation lines, and the panel's `isExporting` flag and the
  effects of its two buttons (alerts, browser downloads, and files handed
  to the desktop bridge for writing).
*/
module TuneExporterFixed {
  import opened Types
  import opened Text
  import TuneExporter

  /** `${index + 1}. ` and the indent of the continuation lines. */
  function Number(n: nat): string {
    NatToString(n) + ". "
  }

  const Indent: string := "   "

  function NumberedFuelEntry(n: nat, adj: Adjustment): string {
    Number(n) + FuelLines(adj)
  }

  function FuelLines(adj: Adjustment): string {
    "RPM Range: " + adj.rpmRange + "\n" +
    Indent + "Load: " + adj.loadCondition + "\n" +
    Indent + "Current AFR: " + TuneExporter.OrDefault(adj.currentAFR, "N/A") + "\n" +
    Indent + "Target AFR: " + TuneExporter.OrDefault(adj.targetAFR, "N/A") + "\n" +
    Indent + "Suggestion: " + adj.suggestion + "\n" +
    Indent + "Reason: " + adj.reason + "\n\n"
  }

  function NumberedIgnitionEntry(n: nat, adj: Adjustment): string {
    Number(n) + IgnitionLines(adj)
  }

  function IgnitionLines(adj: Adjustment): string {
    "RPM Range: " + adj.rpmRange + "\n" +
    Indent + "Load: " + adj.loadCondition + "\n" +
    Indent + "Suggestion: " + adj.suggestion + "\n" +
    Indent + "Reason: " + adj.reason + "\n\n"
  }

  function NumberedObservationEntry(n: nat, obs: Observation): string {
    Number(n) + ObservationLines(obs)
  }

  function ObservationLines(obs: Observation): string {
    "Observation: " + obs.observation + "\n" +
    Indent + "Recommendation: " + obs.recommendation + "\n\n"
  }

  /** The entries of a list numbered from `first` on, in list order. */
  function NumberedEntries<T>(items: seq<T>, first: nat, entry: (nat, T) -> string): string {
    if |items| == 0 then ""
    else NumberedEntries(items[..|items| - 1], first, entry) + entry(first + |items| - 1, items[|items| - 1])
  }

  /** A section numbers its entries from 1. */
  function NumberedSection<T>(header: string, items: seq<T>, entry: (nat, T) -> string): string {
    if |items| == 0 then "" else header + NumberedEntries(items, 1, entry)
  }

  /** The whole numbered change log. */
  function ChangeLog(s: TuningSuggestions, e: EngineType, baseMapName: Option<string>, generated: string): string {
    TuneExporter.Preamble(generated, e, baseMapName) + TuneExporter.SummaryBlock(s.summary) +
    NumberedSection(TuneExporter.FuelHeader, s.fuelAdjustments, NumberedFuelEntry) +
    NumberedSection(TuneExporter.IgnitionHeader, s.ignitionAdjustments, NumberedIgnitionEntry) +
    NumberedSection(TuneExporter.ObservationsHeader, s.otherObservations, NumberedObservationEntry)
  }

  /** `items.forEach((item, index) => content += ...)` */
  method AppendNumberedEntries<T>(content: string, items: seq<T>, entry: (nat, T) -> string) returns (r: string)
    ensures r == content + NumberedEntries(items, 1, entry)
  {
    r := content;
    for index := 0 to |items|
      invariant r == content + NumberedEntries(items[..index], 1, entry)
    {
      assert items[..index + 1][..index] == items[..index];
      r := r + entry(index + 1, items[index]);
    }
    assert items[..|items|] == items;
  }

  method AppendNumberedSection<T>(content: string, header: string, items: seq<T>, entry: (nat, T) -> string)
    returns (r: string)
    ensures r == content + NumberedSection(header, items, entry)
  {
    r := content;
    if |items| > 0 {
      r := r + header;
      r := AppendNumberedEntries(r, items, entry);
      TuneExporter.Associative(content, header, NumberedEntries(items, 1, entry));
    }
  }

  /** `generateTuningFileContent` */
  method GenerateTuningFileContent(s: TuningSuggestions, e: EngineType, baseMapName: Option<string>, generated: string)
    returns (content: string)
    ensures content == ChangeLog(s, e, baseMapName, generated)
  {
    content := TuneExporter.Title;
    content := content + TuneExporter.GeneratedLine(generated);
    content := content + TuneExporter.EngineTypeLine(e);
    content := content + TuneExporter.BaseMapLine(baseMapName);
    content := content + TuneExporter.DisclaimerHeader;
    content := content + TuneExporter.DisclaimerText;
    content := content + TuneExporter.SummaryBlock(s.summary);
    content := AppendNumberedSection(content, TuneExporter.FuelHeader, s.fuelAdjustments, NumberedFuelEntry);
    content := AppendNumberedSection(content, TuneExporter.IgnitionHeader, s.ignitionAdjustments, NumberedIgnitionEntry);
    content := AppendNumberedSection(content, TuneExporter.ObservationsHeader, s.otherObservations, NumberedObservationEntry);
  }

  // ---------------------------------------------------------------------
  // Properties of the numbered log
  // ---------------------------------------------------------------------

  /** The numbered log opens exactly like the original one. */
  lemma ChangeLogOpening(s: TuningSuggestions, e: EngineType, baseMapName: Option<string>, generated: string)
    ensures StartsWith(ChangeLog(s, e, baseMapName, generated), TuneExporter.Opening(generated, e, baseMapName))
    ensures StartsWith(ChangeLog(s, e, baseMapName, generated),
      "Hondata AI Tuning Suggestions\n\n" +
      ("Generated: " + generated + "\n") +
      ("Engine Type: " + (if e == NaturallyAspirated then TuneExporter.NaturallyAspiratedLabel else TuneExporter.BoostedLabel) + "\n") +
      ("Base Map: " + (if baseMapName.Some? && baseMapName.value != "" then baseMapName.value else "Not provided") + "\n\n"))
  {
    var log := ChangeLog(s, e, baseMapName, generated);
    var preamble := TuneExporter.Preamble(generated, e, baseMapName);
    var opening := TuneExporter.Opening(generated, e, baseMapName);
    StartsWithAppend(opening + TuneExporter.DisclaimerHeader, TuneExporter.DisclaimerText);
    StartsWithAppend(opening, TuneExporter.DisclaimerHeader);
    StartsWithTrans(preamble, opening + TuneExporter.DisclaimerHeader, opening);
    TuneExporter.PrefixOfFive(preamble, TuneExporter.SummaryBlock(s.summary),
      NumberedSection(TuneExporter.FuelHeader, s.fuelAdjustments, NumberedFuelEntry),
      NumberedSection(TuneExporter.IgnitionHeader, s.ignitionAdjustments, NumberedIgnitionEntry),
      NumberedSection(TuneExporter.ObservationsHeader, s.otherObservations, NumberedObservationEntry));
    StartsWithTrans(log, preamble, opening);
  }

  /** Numbering a concatenation numbers the second part on from where the
      first part stopped. */
  lemma {:induction false} NumberedEntriesConcat<T>(a: seq<T>, b: seq<T>, first: nat, entry: (nat, T) -> string)
    ensures NumberedEntries(a + b, first, entry) ==
            NumberedEntries(a, first, entry) + NumberedEntries(b, first + |a|, entry)
    decreases |b|
  {
    if |b| == 0 {
      assert a + b == a;
    } else {
      assert (a + b)[..|a + b| - 1] == a + b[..|b| - 1];
      assert (a + b)[|a + b| - 1] == b[|b| - 1];
      NumberedEntriesConcat(a, b[..|b| - 1], first, entry);
    }
  }

  /** The entry of item `i` carries the number `i + 1` and sits right after
      the entries of the items before it. */
  lemma NumberedEntryAt<T>(items: seq<T>, entry: (nat, T) -> string, i: nat)
    requires i < |items|
    ensures IsAt(NumberedEntries(items, 1, entry), entry(i + 1, items[i]), |NumberedEntries(items[..i], 1, entry)|)
  {
    assert items == items[..i] + ([items[i]] + items[i + 1..]);
    NumberedEntriesConcat(items[..i], [items[i]] + items[i + 1..], 1, entry);
    NumberedEntriesConcat([items[i]], items[i + 1..], 1 + i, entry);
    assert NumberedEntries([items[i]], 1 + i, entry) == entry(i + 1, items[i]) by {
      assert [items[i]][..0] == [];
    }
    var pre := NumberedEntries(items[..i], 1, entry);
    var all := NumberedEntries(items, 1, entry);
    assert all == pre + entry(i + 1, items[i]) + NumberedEntries(items[i + 1..], i + 2, entry);
    assert all[|pre|..|pre| + |entry(i + 1, items[i])|] == entry(i + 1, items[i]);
  }

  /** A section is written exactly when its list is non-empty, and its
      numbering then starts at 1. */
  lemma NumberedSectionStartsAtOne<T>(header: string, items: seq<T>, entry: (nat, T) -> string)
    ensures header != "" ==> (NumberedSection(header, items, entry) == "" <==> |items| == 0)
    ensures |items| > 0 ==> StartsWith(NumberedSection(header, items, entry), header + entry(1, items[0]))
  {
    if |items| > 0 {
      NumberedEntryAt(items, entry, 0);
      assert items[..0] == [];
      var entries := NumberedEntries(items, 1, entry);
      assert entries[..|entry(1, items[0])|] == entry(1, items[0]);
      assert (header + entries)[..|header + entry(1, items[0])|] == header + entry(1, items[0]);
    }
  }

  /** Every numbered entry opens with its number, a dot and a space. */
  lemma NumberedEntriesOpenWithNumber(n: nat, adj: Adjustment, obs: Observation)
    ensures StartsWith(NumberedFuelEntry(n, adj), NatToString(n) + ". ")
    ensures StartsWith(NumberedIgnitionEntry(n, adj), NatToString(n) + ". ")
    ensures StartsWith(NumberedObservationEntry(n, obs), NatToString(n) + ". ")
    ensures NatToString(1) == "1"
  {
    StartsWithAppend(Number(n), FuelLines(adj));
    StartsWithAppend(Number(n), IgnitionLines(adj));
    StartsWithAppend(Number(n), ObservationLines(obs));
    assert NatToString(1) == [DigitChar(1)];
  }

  // ---------------------------------------------------------------------
  // The export panel
  // ---------------------------------------------------------------------

  const SavedMessage: string := "Tuning suggestions saved successfully!"
  const ExportFailedMessage: string := "Failed to export tuning suggestions"
  const SklComingSoonMessage: string :=
    "SKL modification feature is coming soon! For now, use the text export to manually apply changes."

  /** A file with its name and text, as handed to the browser or the bridge. */
  datatype FileOut = FileOut(name: string, text: string)

  /** How the native save dialog settled: rejected, or closed with its
      `canceled` flag and its file path (empty when none was returned). */
  datatype DialogOutcome = DialogRejected | DialogClosed(canceled: bool, filePath: string)

  /** How the `writeFile` request settled. Its reply (success or not) is
      not inspected by the panel. */
  datatype WriteOutcome = WriteResolved(reply: bool) | WriteRejected

  /** The export panel: its props, its `isExporting` flag, and what it has
      done so far. */
  class ExportActions {
    const suggestions: TuningSuggestions
    const engineType: EngineType
    const baseMapFile: Option<FileRef>
    var isExporting: bool
    var alerts: seq<string>
    var downloads: seq<FileOut>
    var writeRequests: seq<FileOut>

    constructor (suggestions: TuningSuggestions, engineType: EngineType, baseMapFile: Option<FileRef>)
      ensures this.suggestions == suggestions && this.engineType == engineType && this.baseMapFile == baseMapFile
      ensures !isExporting && alerts == [] && downloads == [] && writeRequests == []
    {
      this.suggestions := suggestions;
      this.engineType := engineType;
      this.baseMapFile := baseMapFile;
      isExporting := false;
      alerts := [];
      downloads := [];
      writeRequests := [];
    }

    /** `baseMapFile?.name` */
    function BaseMapName(): Option<string>
      reads this
    {
      if baseMapFile.Some? then Some(baseMapFile.value.name) else None
    }

    /** `handleDownloadTxt` up to its first `await`. Without the desktop
        bridge the browser download happens at once and the handler ends;
        with it, the save dialog opens on the returned file and the panel
        stays busy until `FinishDownloadTxt`. */
    method HandleDownloadTxt(generated: string, iso: string, hasBridge: bool) returns (pending: Option<FileOut>)
      modifies this`isExporting, this`downloads
      ensures var file := FileOut(TuneExporter.ChangeLogFileName(iso), ChangeLog(suggestions, engineType, BaseMapName(), generated));
        && (hasBridge ==> pending == Some(file) && isExporting && downloads == old(downloads))
        && (!hasBridge ==> pending == None && !isExporting && downloads == old(downloads) + [file])
    {
      isExporting := true;
      var fileContent := GenerateTuningFileContent(suggestions, engineType, BaseMapName(), generated);
      var fileName := TuneExporter.ChangeLogFileName(iso);
      if hasBridge {
        pending := Some(FileOut(fileName, fileContent));
      } else {
        downloads := downloads + [FileOut(fileName, fileContent)];
        isExporting := false;
        pending := None;
      }
    }

    /** The rest of `handleDownloadTxt` once the dialog, and the write if
        one was requested, have settled. A resolved write is reported as
        saved whatever its reply says. */
    method FinishDownloadTxt(file: FileOut, dialog: DialogOutcome, write: WriteOutcome)
      modifies this`isExporting, this`alerts, this`writeRequests
      ensures !isExporting
      ensures dialog.DialogRejected? ==>
        alerts == old(alerts) + [ExportFailedMessage] && writeRequests == old(writeRequests)
      ensures dialog.DialogClosed? && (dialog.canceled || dialog.filePath == "") ==>
        alerts == old(alerts) && writeRequests == old(writeRequests)
      ensures dialog.DialogClosed? && !dialog.canceled && dialog.filePath != "" ==>
        && writeRequests == old(writeRequests) + [FileOut(dialog.filePath, file.text)]
        && alerts == old(alerts) + [if write.WriteResolved? then SavedMessage else ExportFailedMessage]
    {
      match dialog {
        case DialogRejected =>
          alerts := alerts + [ExportFailedMessage];
        case DialogClosed(canceled, filePath) =>
          if !canceled && filePath != "" {
            writeRequests := writeRequests + [FileOut(filePath, file.text)];
            if write.WriteResolved? {
              alerts := alerts + [SavedMessage];
            } else {
              alerts := alerts + [ExportFailedMessage];
            }
          }
      }
      isExporting := false;
    }

    /** `handleDownloadSkl`: without a base map nothing happens, not even to
        `isExporting`; otherwise it announces that the feature is coming
        and the panel is idle again. */
    method HandleDownloadSkl()
      modifies this`isExporting, this`alerts
      ensures baseMapFile.None? ==> isExporting == old(isExporting) && alerts == old(alerts)
      ensures baseMapFile.Some? ==> !isExporting && alerts == old(alerts) + [SklComingSoonMessage]
    {
      if baseMapFile.None? {
        return;
      }
      isExporting := true;
      alerts := alerts + [SklComingSoonMessage];
      isExporting := false;
    }
  }
}
