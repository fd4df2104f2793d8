/**
  check_train_data.py: `check_data_consistency` compares the line counts of `wav.scp`, `text` and
  `data.list` (raw `readlines()` lengths, blank lines included) and logs either a warning with the
  three counts or a success message.
*/
module CheckTrainData {
  import opened PyStr

  /** What the check logs. */
  datatype Report = Mismatch(wavScp: nat, text: nat, dataList: nat) | Consistent

  /** `check_data_consistency`: it only reports, and changes none of its inputs. */
  function CheckDataConsistency(wavScpLines: seq<String>, textLines: seq<String>, dataListLines: seq<String>): (r: Report)
    ensures r.Mismatch? <==> |wavScpLines| != |textLines| || |wavScpLines| != |dataListLines|
    ensures r.Consistent? <==> |wavScpLines| == |textLines| == |dataListLines|
    ensures r.Mismatch? ==> r == Mismatch(|wavScpLines|, |textLines|, |dataListLines|)
  {
    if |wavScpLines| != |textLines| || |wavScpLines| != |dataListLines| then
      Mismatch(|wavScpLines|, |textLines|, |dataListLines|)
    else
      Consistent
  }

  /** Counts are of raw lines: adding a blank line to one file alone makes a consistent set
      inconsistent. */
  lemma BlankLineCounts(wavScpLines: seq<String>, textLines: seq<String>, dataListLines: seq<String>)
    requires CheckDataConsistency(wavScpLines, textLines, dataListLines).Consistent?
    ensures CheckDataConsistency(wavScpLines + ["\n"], textLines, dataListLines).Mismatch?
  {
  }
}
