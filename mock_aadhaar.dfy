/**
 * The demonstration farmer registry: a fixed table of five profiles and the lookup
 * by Aadhaar number, which compares the digits of its argument with each entry.
 */
module MockAadhaar {
  import opened Wrappers
  import opened JsString
  import Aadhaar

  datatype FarmerProfile = FarmerProfile(
    aadhaar: string,
    name: string,
    age: nat,
    village: string,
    district: string,
    state: string,
    lat: real,
    lon: real,
    crops: seq<string>,
    landAcres: real,
    soilType: string,
    irrigationType: string,
    annualIncomeINR: nat,
    phone: string)

  /** `MOCK_FARMERS`. */
  const MockFarmers: seq<FarmerProfile> := [
    FarmerProfile("123456789012", "Ravi Kumar Shinde", 42, "Sinnar", "Nashik", "Maharashtra",
                  19.85, 73.98, ["Grapes", "Onion"], 3.5, "Black Cotton Soil", "Drip Irrigation",
                  280000, "9821XXXXXX"),
    FarmerProfile("234567890123", "Suresh Mangalbhai Patel", 55, "Olpad", "Surat", "Gujarat",
                  21.34, 72.75, ["Cotton", "Groundnut"], 7.0, "Sandy Loam", "Canal Irrigation",
                  420000, "9724XXXXXX"),
    FarmerProfile("345678901234", "Lakshmi Venkata Devi", 38, "Tenali", "Guntur", "Andhra Pradesh",
                  16.24, 80.64, ["Rice", "Chilli"], 5.0, "Alluvial Soil", "Canal + Borewell",
                  350000, "9848XXXXXX"),
    FarmerProfile("456789012345", "Gurpreet Singh Dhillon", 48, "Tarn Taran", "Amritsar", "Punjab",
                  31.45, 74.93, ["Wheat", "Paddy"], 12.0, "Sandy Clay Loam", "Tubewell",
                  680000, "9815XXXXXX"),
    FarmerProfile("567890123456", "Mohammed Yusuf Biradar", 44, "Humnabad", "Bidar", "Karnataka",
                  17.76, 76.94, ["Sugarcane", "Tur Dal"], 6.0, "Red Laterite", "Drip + Borewell",
                  310000, "9916XXXXXX")
  ]

  /** `farmers.find(f => f.aadhaar === clean)`: the first entry with that number. */
  function FindByAadhaar(farmers: seq<FarmerProfile>, clean: string): (r: Option<FarmerProfile>)
    ensures r.Some? ==> exists i :: 0 <= i < |farmers| && farmers[i] == r.value &&
                          r.value.aadhaar == clean &&
                          forall j :: 0 <= j < i ==> farmers[j].aadhaar != clean
    ensures r.None? <==> forall i :: 0 <= i < |farmers| ==> farmers[i].aadhaar != clean
  {
    if farmers == [] then None
    else if farmers[0].aadhaar == clean then Some(farmers[0])
    else
      var r := FindByAadhaar(farmers[1..], clean);
      if r.Some? then
        var i :| 0 <= i < |farmers[1..]| && farmers[1..][i] == r.value && r.value.aadhaar == clean &&
                 forall j :: 0 <= j < i ==> farmers[1..][j].aadhaar != clean;
        assert farmers[i + 1] == r.value;
        r
      else r
  }

  /** `getFarmerByAadhaar`: the non-digits of the argument are dropped before the comparison. */
  function GetFarmerByAadhaar(aadhaar: string): (r: Option<FarmerProfile>)
    ensures r.Some? ==> r.value in MockFarmers && r.value.aadhaar == DigitsOf(aadhaar)
    ensures r.None? <==> forall f :: f in MockFarmers ==> f.aadhaar != DigitsOf(aadhaar)
  {
    FindByAadhaar(MockFarmers, DigitsOf(aadhaar))
  }

  /** Every number in the table has twelve digits, and no two entries share one. */
  lemma TableNumbersDistinct()
    ensures forall i :: 0 <= i < |MockFarmers| ==>
              |MockFarmers[i].aadhaar| == Aadhaar.AadhaarDigits && AllDigits(MockFarmers[i].aadhaar)
    ensures forall i, j :: 0 <= i < j < |MockFarmers| ==> MockFarmers[i].aadhaar != MockFarmers[j].aadhaar
  {
    forall i, j | 0 <= i < j < |MockFarmers|
      ensures MockFarmers[i].aadhaar != MockFarmers[j].aadhaar
    {
      assert MockFarmers[i].aadhaar[0] != MockFarmers[j].aadhaar[0];
    }
  }

  /** A number without exactly twelve digits finds nobody. */
  lemma WrongLengthNotFound(aadhaar: string)
    requires |DigitsOf(aadhaar)| != Aadhaar.AadhaarDigits
    ensures GetFarmerByAadhaar(aadhaar) == None
  {
    TableNumbersDistinct();
  }

  /** The entry found is the only one with that number. */
  lemma FoundEntryUnique(aadhaar: string, i: nat)
    requires i < |MockFarmers| && MockFarmers[i].aadhaar == DigitsOf(aadhaar)
    ensures GetFarmerByAadhaar(aadhaar) == Some(MockFarmers[i])
  {
    TableNumbersDistinct();
    var r := GetFarmerByAadhaar(aadhaar);
    assert MockFarmers[i] in MockFarmers;
    var k :| 0 <= k < |MockFarmers| && MockFarmers[k] == r.value && r.value.aadhaar == DigitsOf(aadhaar) &&
             forall j :: 0 <= j < k ==> MockFarmers[j].aadhaar != DigitsOf(aadhaar);
    assert k == i;
  }

  /** Only the digits matter: arguments with the same digits find the same entry. */
  lemma SameDigitsSameFarmer(a: string, b: string)
    requires DigitsOf(a) == DigitsOf(b)
    ensures GetFarmerByAadhaar(a) == GetFarmerByAadhaar(b)
  {
  }

  /** Looking up the hyphenated form shown in the input field finds what the digits find. */
  lemma FormattedLookup(val: string)
    requires |DigitsOf(val)| <= Aadhaar.AadhaarDigits
    ensures GetFarmerByAadhaar(Aadhaar.FormatAadhaar(val)) == GetFarmerByAadhaar(val)
  {
    Aadhaar.FormatAadhaarShape(val);
    assert DigitsOf(val)[..|DigitsOf(val)|] == DigitsOf(val);
  }
}
