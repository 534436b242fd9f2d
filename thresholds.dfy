/**
 * The alert thresholds held by the service between requests, with the
 * `update_thresholds` and `get_thresholds` operations.
 */
module Thresholds {
  import opened Ingest

  const DefaultTemp: real := 50.0
  const DefaultStrain: real := 5000.0
  const TempKey: string := "temp_threshold"
  const StrainKey: string := "strain_threshold"

  class ThresholdStore {
    var tempThreshold: real
    var strainThreshold: real

    /** The thresholds now in force, as the ingestion reads them. */
    function Current(): Limits
      reads this
    {
      Limits(tempThreshold, strainThreshold)
    }

    constructor ()
      ensures tempThreshold == DefaultTemp && strainThreshold == DefaultStrain
    {
      tempThreshold := DefaultTemp;
      strainThreshold := DefaultStrain;
    }

    /**
     * `update_thresholds`: each threshold whose key is in the request body is
     * replaced by its value; the other is left as it was; the reply is the pair
     * now in force.
     */
    method Update(body: map<string, real>) returns (now: Limits)
      modifies this
      ensures tempThreshold == if TempKey in body then body[TempKey] else old(tempThreshold)
      ensures strainThreshold == if StrainKey in body then body[StrainKey] else old(strainThreshold)
      ensures now == Current()
    {
      if TempKey in body {
        tempThreshold := body[TempKey];
      }
      if StrainKey in body {
        strainThreshold := body[StrainKey];
      }
      now := Limits(tempThreshold, strainThreshold);
    }

    /** `get_thresholds`: the pair now in force. */
    method Get() returns (now: Limits)
      ensures now.temp == tempThreshold && now.strain == strainThreshold
    {
      now := Limits(tempThreshold, strainThreshold);
    }
  }

  /** An update naming only the strain key leaves the temperature threshold, and a later get sees both. */
  method UpdateThenGet(store: ThresholdStore, strain: real) returns (now: Limits)
    modifies store
    ensures now == Limits(old(store.tempThreshold), strain)
  {
    var _ := store.Update(map[StrainKey := strain]);
    now := store.Get();
  }
}
