/**
 * The diagnosis label table that both `FederatedServer._get_diagnosis`
 * (MedAi-Assistant/fl-backend/server/server.py:261-277) and
 * `FederatedClient._get_diagnosis` (MedAi-Assistant/fl-backend/client/client.py:164-180)
 * spell out, and the analysis result a prediction is turned into.
 */
module Diagnosis {
  import opened Wrappers

  /** The label table of one modality; None for a modality the table has no entry for. */
  function Labels(modality: string): (r: Option<map<int, string>>)
    ensures r.Some? <==> modality == "ct" || modality == "mri"
    ensures r.Some? ==> r.value.Keys == {0, 1, 2, 3} && r.value[0] == "Normal"
    ensures r.Some? ==> "Unknown" !in r.value.Values
  {
    if modality == "ct" then
      Some(map[0 := "Normal", 1 := "Pneumonia", 2 := "COVID-19", 3 := "Lung Cancer"])
    else if modality == "mri" then
      Some(map[0 := "Normal", 1 := "Tumor - Grade I/II", 2 := "Tumor - Grade III/IV", 3 := "Multiple Sclerosis"])
    else
      None
  }

  /**
   * The result dictionary `_process_results` builds for one image. The
   * segmentation and feature arrays are numerical outputs of the network and
   * are not part of this model.
   */
  datatype AnalysisResult = AnalysisResult(prediction: int, confidence: real, diagnosis: string, timestamp: string)
}
