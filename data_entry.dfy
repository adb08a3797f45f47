/** The data-entry page's pure logic: the division dispatch tables and their
    fall-backs, the region multiplier, the beneficiary calculator and the
    submission check. */
module DataEntry {
  import opened RecordFormat

  // ----- Dispatch tables -----

  /** Departments offered under each division. */
  const JabatanByDiv: map<string, seq<string>> := map[
    "Disaster Management" := [
      "Dapur Rakyat",
      "Pek Barangan Asas (Dalam Negara)",
      "Pek Barangan Asas (Luar Negara)",
      "Shelter (Dalam Negara)",
      "Shelter (Luar Negara)",
      "Rumah Transit",
      "Relief (Misi Bantuan Bencana)",
      "Post-Disaster Rehabilitation"
    ],
    "Humanitarian" := [
      "Ambulans (Kes Biasa)",
      "Ambulans (Standby Event)",
      "Amal Doctor \U{00E2}\U{20AC}\U{201D} Derma Darah",
      "Amal Doctor \U{00E2}\U{20AC}\U{201D} Khatan",
      "Amal Doctor \U{00E2}\U{20AC}\U{201D} Umum",
      "AMAL Water4Life",
      "Kebajikan"
    ],
    "Human & Talent Development" := [
      "Tadika AMAL",
      "PDS (Pelajar)",
      "TVET / Skills",
      "Pembangunan Wanita/Keluarga/Masyarakat",
      "Daie Lapangan"
    ],
    "Enterprise" := [
      "Qurban (Lembu/Kambing/Unta)"
    ],
    "Outreach" := [
      "Ziarah Mahabbah",
      "Masjid/Surau/Komuniti",
      "Cawangan Negeri",
      "Pemasaran/Media/Fundraising"
    ]
  ]

  /** Calculation methods offered under each division. */
  const CalcChoices: map<string, seq<string>> := map[
    "Disaster Management" := [
      "Dapur Rakyat",
      "Pek Barangan Asas (Dalam Negara)",
      "Pek Barangan Asas (Luar Negara)",
      "Shelter (Dalam Negara)",
      "Shelter (Luar Negara)",
      "Rumah Transit",
      "Manual"
    ],
    "Humanitarian" := [
      "Ambulans (Kes Biasa)",
      "Ambulans (Standby Event)",
      "Amal Doctor \U{00E2}\U{20AC}\U{201D} Derma Darah",
      "Amal Doctor \U{00E2}\U{20AC}\U{201D} Khatan",
      "Amal Doctor \U{00E2}\U{20AC}\U{201D} Umum",
      "AMAL Water4Life",
      "Manual"
    ],
    "Human & Talent Development" := [
      "Tadika AMAL",
      "PDS (Pelajar)",
      "Manual"
    ],
    "Enterprise" := [
      "Qurban (Lembu/Kambing/Unta)",
      "Manual"
    ],
    "Outreach" := ["Manual"]
  ]

  /** The states (and federal territory) whose packs and ambulance trips
      count five people instead of seven. */
  const FiveStates: set<string> := {
    "Selangor", "Perak", "Wilayah Persekutuan Kuala Lumpur", "Negeri Sembilan",
    "Melaka", "Johor", "Pulau Pinang"
  }

  /** The region multiplier. */
  function RegionFactor(state: string): (f: nat)
    ensures f == 5 || f == 7
    ensures f == 5 <==> state in FiveStates
  {
    if state in FiveStates then 5 else 7
  }

  // ----- Calculation methods -----

  /** The calculation methods that have their own branch in the calculator,
      and the manual entry every other name falls back to. */
  datatype Method =
    | DapurRakyat
    | PekDalamNegara
    | PekLuarNegara
    | ShelterDalamNegara
    | ShelterLuarNegara
    | RumahTransit
    | AmbulansKesBiasa
    | AmbulansStandbyEvent
    | DermaDarah
    | Khatan
    | Umum
    | Water4Life
    | TadikaAmal
    | PdsPelajar
    | Qurban
    | Manual

  /** The name under which the page offers each method. */
  function MethodName(m: Method): string
  {
    match m
    case DapurRakyat => "Dapur Rakyat"
    case PekDalamNegara => "Pek Barangan Asas (Dalam Negara)"
    case PekLuarNegara => "Pek Barangan Asas (Luar Negara)"
    case ShelterDalamNegara => "Shelter (Dalam Negara)"
    case ShelterLuarNegara => "Shelter (Luar Negara)"
    case RumahTransit => "Rumah Transit"
    case AmbulansKesBiasa => "Ambulans (Kes Biasa)"
    case AmbulansStandbyEvent => "Ambulans (Standby Event)"
    case DermaDarah => "Amal Doctor \U{00E2}\U{20AC}\U{201D} Derma Darah"
    case Khatan => "Amal Doctor \U{00E2}\U{20AC}\U{201D} Khatan"
    case Umum => "Amal Doctor \U{00E2}\U{20AC}\U{201D} Umum"
    case Water4Life => "AMAL Water4Life"
    case TadikaAmal => "Tadika AMAL"
    case PdsPelajar => "PDS (Pelajar)"
    case Qurban => "Qurban (Lembu/Kambing/Unta)"
    case Manual => "Manual"
  }

  /** The calculator's if/elif chain as a dispatch on the chosen name: a name
      with no branch of its own falls to the manual entry. */
  function MethodOf(name: string): Method
  {
    if name == "Dapur Rakyat" then DapurRakyat
    else if name == "Pek Barangan Asas (Dalam Negara)" then PekDalamNegara
    else if name == "Pek Barangan Asas (Luar Negara)" then PekLuarNegara
    else if name == "Shelter (Dalam Negara)" then ShelterDalamNegara
    else if name == "Shelter (Luar Negara)" then ShelterLuarNegara
    else if name == "Rumah Transit" then RumahTransit
    else if name == "Ambulans (Kes Biasa)" then AmbulansKesBiasa
    else if name == "Ambulans (Standby Event)" then AmbulansStandbyEvent
    else if name == "Amal Doctor \U{00E2}\U{20AC}\U{201D} Derma Darah" then DermaDarah
    else if name == "Amal Doctor \U{00E2}\U{20AC}\U{201D} Khatan" then Khatan
    else if name == "Amal Doctor \U{00E2}\U{20AC}\U{201D} Umum" then Umum
    else if name == "AMAL Water4Life" then Water4Life
    else if name == "Tadika AMAL" then TadikaAmal
    else if name == "PDS (Pelajar)" then PdsPelajar
    else if name == "Qurban (Lembu/Kambing/Unta)" then Qurban
    else Manual
  }

  /** Every method is found again from its own name. */
  lemma MethodNameRoundTrip(m: Method)
    ensures MethodOf(MethodName(m)) == m
  {
    // The names' lengths, which tell most of them apart.
    assert |MethodName(DapurRakyat)| == 12;
    assert |MethodName(PekDalamNegara)| == 32;
    assert |MethodName(PekLuarNegara)| == 31;
    assert |MethodName(ShelterDalamNegara)| == 22;
    assert |MethodName(ShelterLuarNegara)| == 21;
    assert |MethodName(RumahTransit)| == 13;
    assert |MethodName(AmbulansKesBiasa)| == 20;
    assert |MethodName(AmbulansStandbyEvent)| == 24;
    assert |MethodName(DermaDarah)| == 27;
    assert |MethodName(Khatan)| == 22;
    assert |MethodName(Umum)| == 20;
    assert |MethodName(Water4Life)| == 15;
    assert |MethodName(TadikaAmal)| == 11;
    assert |MethodName(PdsPelajar)| == 13;
    assert |MethodName(Qurban)| == 27;
    assert |MethodName(Manual)| == 6;
  }

  /** A name that selects a branch is that branch's own name. */
  lemma BranchNameMatches(name: string)
    ensures MethodOf(name) != Manual ==> MethodName(MethodOf(name)) == name
  {
    // One case per branch of the chain.
    if name == "Dapur Rakyat" {
      assert MethodOf(name) == DapurRakyat;
    } else if name == "Pek Barangan Asas (Dalam Negara)" {
      assert MethodOf(name) == PekDalamNegara;
    } else if name == "Pek Barangan Asas (Luar Negara)" {
      assert MethodOf(name) == PekLuarNegara;
    } else if name == "Shelter (Dalam Negara)" {
      assert MethodOf(name) == ShelterDalamNegara;
    } else if name == "Shelter (Luar Negara)" {
      assert MethodOf(name) == ShelterLuarNegara;
    } else if name == "Rumah Transit" {
      assert MethodOf(name) == RumahTransit;
    } else if name == "Ambulans (Kes Biasa)" {
      assert MethodOf(name) == AmbulansKesBiasa;
    } else if name == "Ambulans (Standby Event)" {
      assert MethodOf(name) == AmbulansStandbyEvent;
    } else if name == "Amal Doctor \U{00E2}\U{20AC}\U{201D} Derma Darah" {
      assert MethodOf(name) == DermaDarah;
    } else if name == "Amal Doctor \U{00E2}\U{20AC}\U{201D} Khatan" {
      assert MethodOf(name) == Khatan;
    } else if name == "Amal Doctor \U{00E2}\U{20AC}\U{201D} Umum" {
      assert MethodOf(name) == Umum;
    } else if name == "AMAL Water4Life" {
      assert MethodOf(name) == Water4Life;
    } else if name == "Tadika AMAL" {
      assert MethodOf(name) == TadikaAmal;
    } else if name == "PDS (Pelajar)" {
      assert MethodOf(name) == PdsPelajar;
    } else if name == "Qurban (Lembu/Kambing/Unta)" {
      assert MethodOf(name) == Qurban;
    }
  }

  /** Every name other than the branches' own names (including "Manual")
      selects the manual entry, and only those do. */
  lemma MethodOfName(name: string)
    ensures MethodOf(name) == Manual <==> forall m: Method :: m != Manual ==> MethodName(m) != name
  {
    if MethodOf(name) == Manual {
      forall m: Method | m != Manual ensures MethodName(m) != name {
        MethodNameRoundTrip(m);
      }
    } else {
      BranchNameMatches(name);
    }
  }

  // ----- Dispatch look-ups with their fall-backs -----

  /** The method choices for a division: the table's list, or only "Manual"
      for a division the table does not know. */
  function CalcOptions(div: string): (r: seq<string>)
    ensures div !in CalcChoices ==> r == ["Manual"]
    ensures div in CalcChoices ==> r == CalcChoices[div]
    ensures "Manual" in r
    ensures forall i :: 0 <= i < |r| && r[i] != "Manual" ==> MethodOf(r[i]) != Manual
  {
    CalcChoicesComplete();
    if div in CalcChoices then CalcChoices[div] else ["Manual"]
  }

  /** The department choices for a division: the table's list when it has a
      non-empty one, otherwise the full department list. */
  function JabOptions(div: string, allJabatan: seq<string>): (r: seq<string>)
    ensures div !in JabatanByDiv ==> r == allJabatan
    ensures div in JabatanByDiv ==> r == JabatanByDiv[div]
  {
    JabatanListsNonEmpty();
    var listed := if div in JabatanByDiv then JabatanByDiv[div] else [];
    if listed == [] then allJabatan else listed
  }

  /** Every division in the table lists at least one department. */
  lemma JabatanListsNonEmpty()
    ensures forall d :: d in JabatanByDiv ==> JabatanByDiv[d] != []
  {
  }

  /** Table invariants: every division offers "Manual", and every other
      method it offers has its own branch in the calculator. */
  lemma CalcChoicesComplete()
    ensures forall d :: d in CalcChoices ==> "Manual" in CalcChoices[d]
    ensures forall d, i ::
      (d in CalcChoices && 0 <= i < |CalcChoices[d]| && CalcChoices[d][i] != "Manual") ==>
        MethodOf(CalcChoices[d][i]) != Manual
  {
    assert CalcChoices.Keys == {"Disaster Management", "Humanitarian", "Human & Talent Development", "Enterprise", "Outreach"};
  }

  // ----- The calculator -----

  /** The animal, as chosen from the page's three-item list. */
  datatype Animal = Lembu | Kambing | Unta

  /** Beneficiaries per animal of each kind. */
  function AnimalFactor(a: Animal): nat
  {
    match a
    case Lembu => 500
    case Kambing => 70
    case Unta => 600
  }

  /** The numbers typed into the calculator's inputs; each input has a
      minimum of 0. Only the inputs shown for the chosen method are read. */
  datatype Inputs = Inputs(
    packs: nat,
    days: nat,
    tents: nat,
    family: nat,
    patients: nat,
    crowd: nat,
    bags: nat,
    participants: nat,
    families: nat,
    students: nat,
    ekor: nat,
    animal: Animal,
    manual: nat)

  /** The beneficiary count of one method. The two float products
      int(crowd * 0.60) and int(students * 750 * 0.20) are taken as the exact
      integer quotients crowd * 3 / 5 and students * 150. */
  function Benef(m: Method, inp: Inputs, state: string): nat
  {
    match m
    case DapurRakyat => inp.packs * 1 * inp.days
    case PekDalamNegara => inp.packs * RegionFactor(state) * 7
    case PekLuarNegara => inp.packs * 7 * inp.days
    case ShelterDalamNegara => inp.tents * 5 * inp.days
    case ShelterLuarNegara => inp.tents * 10 * inp.days
    case RumahTransit => inp.family * inp.days
    case AmbulansKesBiasa => inp.patients * RegionFactor(state)
    case AmbulansStandbyEvent => inp.crowd * 3 / 5
    case DermaDarah => inp.bags * 3 * RegionFactor(state)
    case Khatan => inp.participants * 3
    case Umum => inp.patients
    case Water4Life => inp.families * 10 * 365
    case TadikaAmal => inp.students * 200 * 3
    case PdsPelajar => inp.students * 150
    case Qurban => inp.ekor * AnimalFactor(inp.animal)
    case Manual => inp.manual
  }

  /** The count the page computes for the chosen method name. */
  function Calculate(name: string, inp: Inputs, state: string): nat
  {
    Benef(MethodOf(name), inp, state)
  }

  /** A name without its own branch, "Manual" among them, returns the manual
      count unchanged. */
  lemma UnknownNameIsManual(name: string, inp: Inputs, state: string)
    requires forall m: Method :: m != Manual ==> MethodName(m) != name
    ensures Calculate(name, inp, state) == inp.manual
  {
    MethodOfName(name);
  }

  /** Only the three region-sensitive methods depend on the region, and they
      scale with the region multiplier. */
  lemma RegionDependence(m: Method, inp: Inputs, s1: string, s2: string)
    ensures m !in {PekDalamNegara, AmbulansKesBiasa, DermaDarah} ==> Benef(m, inp, s1) == Benef(m, inp, s2)
    ensures (s1 in FiveStates <==> s2 in FiveStates) ==> Benef(m, inp, s1) == Benef(m, inp, s2)
    ensures m == PekDalamNegara ==> Benef(m, inp, s1) == RegionFactor(s1) * (inp.packs * 7)
  {
  }

  /** Each input of a is at most the same input of b, for the same animal. */
  predicate InputsLe(a: Inputs, b: Inputs)
  {
    a.packs <= b.packs && a.days <= b.days && a.tents <= b.tents &&
    a.family <= b.family && a.patients <= b.patients && a.crowd <= b.crowd &&
    a.bags <= b.bags && a.participants <= b.participants &&
    a.families <= b.families && a.students <= b.students &&
    a.ekor <= b.ekor && a.animal == b.animal && a.manual <= b.manual
  }

  lemma MulMono(a: nat, b: nat, c: nat, d: nat)
    requires a <= c && b <= d
    ensures a * b <= c * d
  {
    assert a * b <= c * b;
    assert c * b <= c * d;
  }

  /** Raising inputs never lowers the count. */
  lemma BenefMonotone(m: Method, a: Inputs, b: Inputs, state: string)
    requires InputsLe(a, b)
    ensures Benef(m, a, state) <= Benef(m, b, state)
  {
    var f := RegionFactor(state);
    match m
    case DapurRakyat => MulMono(a.packs, a.days, b.packs, b.days);
    case PekDalamNegara => MulMono(a.packs, f * 7, b.packs, f * 7);
    case PekLuarNegara => MulMono(a.packs * 7, a.days, b.packs * 7, b.days);
    case ShelterDalamNegara => MulMono(a.tents * 5, a.days, b.tents * 5, b.days);
    case ShelterLuarNegara => MulMono(a.tents * 10, a.days, b.tents * 10, b.days);
    case RumahTransit => MulMono(a.family, a.days, b.family, b.days);
    case AmbulansKesBiasa => MulMono(a.patients, f, b.patients, f);
    case AmbulansStandbyEvent =>
    case DermaDarah => MulMono(a.bags * 3, f, b.bags * 3, f);
    case Khatan =>
    case Umum =>
    case Water4Life =>
    case TadikaAmal =>
    case PdsPelajar =>
    case Qurban => MulMono(a.ekor, AnimalFactor(a.animal), b.ekor, AnimalFactor(b.animal));
    case Manual =>
  }

  /** Worked values of the formulas: community kitchen, and basic goods inside
      and outside the five states. */
  lemma KitchenAndGoodsScenarios(inp: Inputs)
    ensures inp.packs == 100 && inp.days == 3 ==> Calculate("Dapur Rakyat", inp, "Selangor") == 300
    ensures inp.packs == 10 ==> Calculate("Pek Barangan Asas (Dalam Negara)", inp, "Selangor") == 350
    ensures inp.packs == 10 ==> Calculate("Pek Barangan Asas (Dalam Negara)", inp, "Sabah") == 490
  {
  }

  /** Worked values of the formulas: event standby and scholarships. */
  lemma StandbyAndScholarshipScenarios(inp: Inputs)
    ensures inp.crowd == 1000 ==> Calculate("Ambulans (Standby Event)", inp, "Sabah") == 600
    ensures inp.students == 100 ==> Calculate("PDS (Pelajar)", inp, "Perak") == 15000
  {
    MethodNameRoundTrip(AmbulansStandbyEvent);
    MethodNameRoundTrip(PdsPelajar);
  }

  /** The Qurban entry counts the animals times the factor of their kind, in
      any region. */
  lemma QurbanCount(inp: Inputs, state: string)
    ensures Calculate("Qurban (Lembu/Kambing/Unta)", inp, state) == inp.ekor * AnimalFactor(inp.animal)
  {
    MethodNameRoundTrip(Qurban);
  }

  /** Sacrifice counts per animal, and the manual entry for "Manual". */
  lemma QurbanAndManualScenarios(inp: Inputs)
    ensures inp.ekor == 3 && inp.animal == Lembu ==> Calculate("Qurban (Lembu/Kambing/Unta)", inp, "Johor") == 1500
    ensures inp.ekor == 2 && inp.animal == Kambing ==> Calculate("Qurban (Lembu/Kambing/Unta)", inp, "Johor") == 140
    ensures inp.ekor == 1 && inp.animal == Unta ==> Calculate("Qurban (Lembu/Kambing/Unta)", inp, "Johor") == 600
    ensures Calculate("Manual", inp, "Johor") == inp.manual
  {
    QurbanCount(inp, "Johor");
    MethodNameRoundTrip(Manual);
  }

  // ----- Submission -----

  /** What the submit button leads to. */
  datatype SubmitOutcome =
    | MissingContext   // division, region or department not chosen
    | MissingMethod    // no calculation method chosen
    | Accepted

  /** The submission check: division, region and department must all be
      chosen, and then a calculation method. */
  function CheckSubmission(div: string, neg: string, jab: string, calcMethod: string): (o: SubmitOutcome)
    ensures o == Accepted <==> div != "" && neg != "" && jab != "" && calcMethod != ""
    ensures o == MissingContext <==> div == "" || neg == "" || jab == ""
  {
    if jab == "" || neg == "" || div == "" then MissingContext
    else if calcMethod == "" then MissingMethod
    else Accepted
  }

  /** The row the page appends for a submission: the count as an integer and
      the budget (in cents) as a float's text. */
  function NewRow(timestamp: string, div: string, jab: string, neg: string,
                  aktiviti: string, pic: string, lokasi: string,
                  benef: nat, budgetCents: nat): (r: Row)
    ensures ParseInt(r.benef) == Some(benef as int)
    ensures ParseCents(r.budget) == Some(budgetCents as int)
    ensures r.divisyen == div && r.jabatan == jab && r.negeri == neg
    ensures r.timestamp == timestamp && r.aktiviti == aktiviti && r.pic == pic && r.lokasi == lokasi
  {
    FormatNatRoundTrip(benef);
    FormatCentsRoundTrip(budgetCents);
    Row(timestamp, div, jab, neg, aktiviti, pic, lokasi, FormatNat(benef), FormatCents(budgetCents))
  }
}
