/**
 * Name-based rules of the ingestion service: which uploads are accepted
 * (`allowed_file`), and how a data column's name decides its platform
 * (`extract_platform_from_column`) and its sensor type
 * (`categorize_sensor_type`). All of them are total and pure.
 */
module Classify {
  import opened Base
  import opened Text

  /** The rig a sensor column belongs to. */
  datatype Platform = WIN | NC | UnknownPlatform
  {
    /** The tag the service reports. */
    function Label(): string
    {
      match this
      case WIN => "WIN"
      case NC => "NC"
      case UnknownPlatform => "Unknown"
    }
  }

  /** The physical quantity a column measures. */
  datatype SensorType = Temperature | Strain | UnknownType
  {
    /** The tag the service reports. */
    function Label(): string
    {
      match this
      case Temperature => "temperature"
      case Strain => "strain"
      case UnknownType => "unknown"
    }
  }

  /** Upload extensions the service accepts (`ALLOWED_EXTENSIONS`). */
  const AllowedExtensions: set<string> := {"zip"}

  /**
   * `allowed_file`: the name holds a dot and the text after the LAST dot,
   * lower-cased, is an allowed extension.
   */
  predicate AllowedFile(filename: string)
  {
    match LastIndexOf(filename, '.')
    case None => false
    case Some(k) => Lower(filename[k + 1..]) in AllowedExtensions
  }

  /** `extract_platform_from_column`: `WIN` is tested before `NC`. */
  function PlatformOf(column: string): Platform
  {
    var upper := Upper(column);
    if Contains(upper, "WIN") then WIN
    else if Contains(upper, "NC") then NC
    else UnknownPlatform
  }

  /** `categorize_sensor_type`: `temp` is tested before `strain`. */
  function SensorTypeOf(column: string): SensorType
  {
    var lower := Lower(column);
    if Contains(lower, "temp") then Temperature
    else if Contains(lower, "strain") then Strain
    else UnknownType
  }

  /**
   * An accepted name is exactly one that ends in a dot followed by the
   * letters z, i, p in any case; a name without a dot, or with a later
   * extension after `.zip`, is refused.
   */
  lemma AllowedFileIffZipSuffix(filename: string)
    ensures AllowedFile(filename) <==>
      |filename| >= 4 && filename[|filename| - 4] == '.' && Lower(filename[|filename| - 3..]) == "zip"
  {
    var n := |filename|;
    if AllowedFile(filename) {
      var k := LastIndexOf(filename, '.').value;
      assert |Lower(filename[k + 1..])| == 3;
    }
    if n >= 4 && filename[n - 4] == '.' && Lower(filename[n - 3..]) == "zip" {
      var tail := filename[n - 3..];
      assert forall i :: 0 <= i < 3 ==> tail[i] != '.' by {
        forall i | 0 <= i < 3 ensures tail[i] != '.' {
          assert LowerChar(tail[i]) == "zip"[i];
        }
      }
      var r := LastIndexOf(filename, '.');
      assert r.Some? by { assert filename[n - 4] in filename; }
      var k := r.value;
      assert filename[k + 1..] == tail;
    }
  }

  /** The platform rule stated over the substring relation. */
  lemma PlatformRule(column: string)
    ensures PlatformOf(column) == WIN <==> Occurs("WIN", Upper(column))
    ensures PlatformOf(column) == NC <==>
      !Occurs("WIN", Upper(column)) && Occurs("NC", Upper(column))
    ensures PlatformOf(column) == UnknownPlatform <==>
      !Occurs("WIN", Upper(column)) && !Occurs("NC", Upper(column))
  {
  }

  /** The sensor-type rule stated over the substring relation. */
  lemma SensorTypeRule(column: string)
    ensures SensorTypeOf(column) == Temperature <==> Occurs("temp", Lower(column))
    ensures SensorTypeOf(column) == Strain <==>
      !Occurs("temp", Lower(column)) && Occurs("strain", Lower(column))
    ensures SensorTypeOf(column) == UnknownType <==>
      !Occurs("temp", Lower(column)) && !Occurs("strain", Lower(column))
  {
  }

  /** Case does not matter to either classifier. */
  lemma ClassifiersIgnoreCase(column: string)
    ensures PlatformOf(Lower(column)) == PlatformOf(column)
    ensures PlatformOf(Upper(column)) == PlatformOf(column)
    ensures SensorTypeOf(Upper(column)) == SensorTypeOf(column)
    ensures SensorTypeOf(Lower(column)) == SensorTypeOf(column)
  {
    CaseFolding(column);
    CaseFolding(Upper(column));
    CaseFolding(Lower(column));
  }

  /** `WIN` is tested first, so a name holding both `WIN` and `NC` is a `WIN` column. */
  lemma WinBeforeNc()
    ensures PlatformOf("winc") == WIN
  {
    assert Upper("winc") == "WINC";
    assert OccursAt("WIN", "WINC", 0);
  }

  /** A lower-case `nc` anywhere in the name selects `NC`. */
  lemma NcAnywhere()
    ensures PlatformOf("Strain1_nc") == NC
  {
    assert Upper("Strain1_nc") == "STRAIN1_NC";
    AbsentCharNotOccurs("WIN", "STRAIN1_NC", 0);
    assert OccursAt("NC", "STRAIN1_NC", 8);
  }

  /** Matching is a free substring search, not a prefix test. */
  lemma TempAnywhere()
    ensures SensorTypeOf("skin_temp") == Temperature
  {
    assert Lower("skin_temp") == "skin_temp";
    assert OccursAt("temp", "skin_temp", 5);
  }

  /** `temp` is tested first, so a name holding both words is a temperature column. */
  lemma TempBeforeStrain()
    ensures SensorTypeOf("temp_strain") == Temperature
  {
    assert Lower("temp_strain") == "temp_strain";
    assert OccursAt("temp", "temp_strain", 0);
  }

  /** The extension is compared case-insensitively. */
  lemma AcceptsUpperCaseZip()
    ensures AllowedFile("a.ZIP")
  {
    assert LastIndexOf("a.ZIP", '.') == Some(1);
    assert Lower("ZIP") == "zip";
  }

  /** A name without a dot is refused, even when it reads `zip`. */
  lemma RejectsBareZip()
    ensures !AllowedFile("zip")
  {
    assert '.' !in "zip";
  }

  /** Only the text after the last dot counts. */
  lemma RejectsLaterExtension()
    ensures !AllowedFile("a.zip.csv")
  {
    assert LastIndexOf("a.zip.csv", '.') == Some(5);
    assert Lower("csv") == "csv";
  }
}
