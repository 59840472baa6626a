/** The backend's knowledge base and its keyword classifier
    (`BCA_KNOWLEDGE_BASE` and `get_relevant_knowledge` in chat.py). */
module Knowledge {
  import opened Wrappers
  import opened Text

  /** A citation: a code section label, its title and a short excerpt. */
  datatype Source = Source(section: string, title: string, excerpt: string)

  /** One knowledge-base record: the code section it summarises, the summary
      fed to the model, and the citations returned to the client. */
  datatype Entry = Entry(section: string, content: string, sources: seq<Source>)

  /** The four topics of the knowledge base, one per key of the table. */
  datatype Topic = FireSafety | EnergyEfficiency | Structural | Accessibility

  /** The dictionary key under which the table stores each topic. */
  function Key(t: Topic): string
  {
    match t
    case FireSafety => "fire_safety"
    case EnergyEfficiency => "energy_efficiency"
    case Structural => "structural"
    case Accessibility => "accessibility"
  }

  const KnowledgeBase: map<string, Entry> := map[
    "fire_safety" := Entry(
      "Section C",
      "Fire safety requirements in the Building Code of Australia are primarily covered in Section C of the NCC. Buildings must comply with fire resistance levels (FRL) appropriate for their classification and use. Class 2 buildings (apartments) require specific fire separation between units and common areas.",
      [ Source("Section C1.1", "Fire Resistance",
               "An element is to have an FRL appropriate for its intended purpose, which shall be verified by testing, or calculation based on testing, in accordance with C1.2, C1.3 and C1.5."),
        Source("Section C2.2", "Fire Separation",
               "Fire separation must be provided between different fire compartments to prevent the spread of fire.") ]),
    "energy_efficiency" := Entry(
      "Section J",
      "Energy efficiency requirements are detailed in Section J of the NCC. The 2022 edition introduced stricter thermal performance standards, requiring buildings to achieve higher star ratings. New homes must now meet 7-star energy efficiency, up from the previous 6-star requirement.",
      [ Source("Section J1.2", "Energy Efficiency",
               "Buildings must achieve the energy efficiency requirements specified in this section."),
        Source("Section J1.5", "Building Fabric",
               "The building fabric must comply with thermal performance requirements to achieve the required energy efficiency.") ]),
    "structural" := Entry(
      "Section B",
      "Structural requirements are covered in Section B of the NCC. All structural elements must be designed to withstand the loads and forces they may reasonably be expected to experience during construction and use. This includes dead loads, live loads, wind loads, and seismic forces where applicable.",
      [ Source("Section B1.2", "Structural Provisions",
               "A building or structure must have structural integrity during construction and use."),
        Source("Section B1.4", "Loads and Forces",
               "Structural elements must be designed for appropriate loads and forces as specified in the relevant Australian Standards.") ]),
    "accessibility" := Entry(
      "Section D",
      "Accessibility requirements are outlined in Section D of the NCC. Buildings must provide appropriate access and facilities for people with disabilities, including accessible paths of travel, doorways, ramps, and sanitary facilities.",
      [ Source("Section D3.1", "Access for People with Disabilities",
               "Buildings must provide access and facilities for people with disabilities in accordance with the Disability Discrimination Act.") ])
  ]

  /** The table entry stored under the topic's key. */
  function EntryFor(t: Topic): (e: Entry)
    ensures Key(t) in KnowledgeBase && e == KnowledgeBase[Key(t)]
    ensures |e.sources| > 0
  {
    KnowledgeBase[Key(t)]
  }

  /** The keyword list tested for each topic, in the order written. */
  function Keywords(t: Topic): seq<string>
  {
    match t
    case FireSafety => ["fire", "safety", "flame", "smoke"]
    case EnergyEfficiency => ["energy", "efficiency", "thermal", "star", "rating"]
    case Structural => ["structural", "structure", "load", "force", "beam", "column"]
    case Accessibility => ["access", "accessibility", "disability", "disabled"]
  }

  /** The position of a topic's test in the `if`/`elif` chain: a lower rank
      is tested first and wins. */
  function Rank(t: Topic): nat
  {
    match t
    case FireSafety => 0
    case EnergyEfficiency => 1
    case Structural => 2
    case Accessibility => 3
  }

  /** Some keyword of topic `t` occurs as a substring of `text`. */
  ghost predicate Mentions(t: Topic, text: string)
  {
    exists j :: 0 <= j < |Keywords(t)| && IsSubstring(Keywords(t)[j], text)
  }

  /** Python's `any(keyword in text for keyword in keywords)`. */
  function AnyKeyword(keywords: seq<string>, text: string): (r: bool)
    ensures r <==> exists j :: 0 <= j < |keywords| && IsSubstring(keywords[j], text)
  {
    if keywords == [] then
      false
    else if Contains(keywords[0], text) then
      true
    else
      var r := AnyKeyword(keywords[1..], text);
      assert forall j :: 1 <= j < |keywords| ==> keywords[j] == keywords[1..][j - 1];
      r
  }

  /** `get_relevant_knowledge` up to the table lookup: lower-case the query,
      then test the four keyword lists in their fixed order. Each topic is
      chosen exactly when one of its keywords occurs and no keyword of an
      earlier list does. */
  function Classify(query: string): (r: Option<Topic>)
    ensures var q := Lower(query);
      && (r == Some(FireSafety) <==> Mentions(FireSafety, q))
      && (r == Some(EnergyEfficiency) <==> !Mentions(FireSafety, q) && Mentions(EnergyEfficiency, q))
      && (r == Some(Structural) <==>
            !Mentions(FireSafety, q) && !Mentions(EnergyEfficiency, q) && Mentions(Structural, q))
      && (r == Some(Accessibility) <==>
            && !Mentions(FireSafety, q) && !Mentions(EnergyEfficiency, q) && !Mentions(Structural, q)
            && Mentions(Accessibility, q))
  {
    var q := Lower(query);
    if AnyKeyword(Keywords(FireSafety), q) then Some(FireSafety)
    else if AnyKeyword(Keywords(EnergyEfficiency), q) then Some(EnergyEfficiency)
    else if AnyKeyword(Keywords(Structural), q) then Some(Structural)
    else if AnyKeyword(Keywords(Accessibility), q) then Some(Accessibility)
    else None
  }

  /** The priority rule in general form: topic `t` is the answer exactly
      when the query mentions it and mentions no topic of lower rank. */
  lemma PriorityOrder(query: string, t: Topic)
    ensures Classify(query) == Some(t) <==>
      Mentions(t, Lower(query)) && forall u :: Rank(u) < Rank(t) ==> !Mentions(u, Lower(query))
  {
    var q := Lower(query);
    match t
    case FireSafety =>
    case EnergyEfficiency =>
      assert forall u :: Rank(u) < 1 ==> u == FireSafety;
    case Structural =>
      assert forall u :: Rank(u) < 2 ==> u == FireSafety || u == EnergyEfficiency;
    case Accessibility =>
      assert forall u :: Rank(u) < 3 ==> u != Accessibility;
  }

  /** No entry is found exactly when no keyword of any of the four lists
      occurs in the lower-cased query. */
  lemma NoneIffNoKeyword(query: string)
    ensures Classify(query) == None ==> forall t :: !Mentions(t, Lower(query))
    ensures (forall t :: !Mentions(t, Lower(query))) ==> Classify(query) == None
  {
    var q := Lower(query);
    if Classify(query) == None {
      forall t
        ensures !Mentions(t, q)
      {
        match t
        case FireSafety =>
        case EnergyEfficiency =>
        case Structural =>
        case Accessibility =>
      }
    }
    if forall t :: !Mentions(t, q) {
      assert !Mentions(FireSafety, q) && !Mentions(EnergyEfficiency, q);
      assert !Mentions(Structural, q) && !Mentions(Accessibility, q);
      assert Classify(query) == None;
    } else {
      var t :| Mentions(t, q);
      assert Classify(query) != None by {
        match t
        case FireSafety =>
        case EnergyEfficiency =>
        case Structural =>
        case Accessibility =>
      }
      assert Mentions(t, Lower(query));
      assert !(forall u :: !Mentions(u, Lower(query)));
    }
  }

  /** `get_relevant_knowledge(query)`: the entry of the chosen topic, or
      `None`. */
  function GetRelevantKnowledge(query: string): (r: Option<Entry>)
    ensures r == None <==> Classify(query) == None
    ensures Classify(query).Some? ==> r == Some(EntryFor(Classify(query).value))
  {
    match Classify(query)
    case Some(t) => Some(EntryFor(t))
    case None => None
  }

  /** The citations the endpoint returns: the matched entry's list, or the
      empty list. */
  function SourcesOf(k: Option<Entry>): seq<Source>
  {
    match k
    case Some(e) => e.sources
    case None => []
  }

  /** A fire keyword decides the answer whatever else the query says. */
  lemma FireWins(query: string)
    requires Mentions(FireSafety, Lower(query))
    ensures GetRelevantKnowledge(query) == Some(EntryFor(FireSafety))
  {
  }

  /** Classification ignores letter case: a query and its lower-cased form
      find the same entry. */
  lemma {:induction false} CaseInsensitive(query: string)
    ensures GetRelevantKnowledge(Lower(query)) == GetRelevantKnowledge(query)
  {
    LowerIdempotent(query);
  }

  /** Which keyword lists "download" hits: none of the fire or energy
      words, but "load" at index 4. */
  lemma DownloadMentions()
    ensures !Mentions(FireSafety, "download")
    ensures !Mentions(EnergyEfficiency, "download")
    ensures Mentions(Structural, "download")
  {
    var q := "download";
    FirstCharAbsent("fire", q);
    FirstCharAbsent("safety", q);
    FirstCharAbsent("flame", q);
    FirstCharAbsent("smoke", q);
    FirstCharAbsent("energy", q);
    FirstCharAbsent("efficiency", q);
    FirstCharAbsent("thermal", q);
    FirstCharAbsent("star", q);
    FirstCharAbsent("rating", q);
    assert OccursAt("load", q, 4);
    assert Keywords(Structural)[2] == "load";
  }

  /** Substring matching is not word matching: "Download" contains "load"
      and so selects the structural entry, although no word of the query
      is a keyword. */
  lemma DownloadMatchesLoad()
    ensures GetRelevantKnowledge("Download") == Some(EntryFor(Structural))
  {
    assert Lower("Download") == "download" by {
      assert LowerChar('D') == 'd';
    }
    DownloadMentions();
  }
}
