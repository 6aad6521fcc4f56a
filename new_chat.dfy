/**
 * The "new conversation" contact picker: the type selector and the search
 * box that narrow the contact grid, the status and type colours, the
 * avatar fallback, the recent-contacts strip and the clear button.
 */
module NewChat {
  import opened Wrappers
  import opened Text
  import opened Seqs

  /** A contact; `contactType` and `status` keep the raw strings so the colour maps' default branches stay reachable. */
  datatype Contact = Contact(id: string, name: string, role: string, company: string,
                             contactType: string, status: string, verified: bool)

  const ContactTypes: set<string> := {"recruiter", "developer", "ai", "collaborator"}

  /** The type selector: "all", or exactly the chosen type. */
  predicate TypeMatches(c: Contact, selectedType: string)
  {
    selectedType == "all" || c.contactType == selectedType
  }

  /** The search box: empty, or the lowercased query occurs in the lowercased name, role or company. */
  predicate SearchMatches(c: Contact, query: string)
  {
    query == ""
    || Includes(ToLower(c.name), ToLower(query))
    || Includes(ToLower(c.role), ToLower(query))
    || Includes(ToLower(c.company), ToLower(query))
  }

  /** The first filter step's callback (used only when a type is chosen). */
  function OfType(selectedType: string): Contact -> bool
  {
    (c: Contact) => c.contactType == selectedType
  }

  /** The second filter step's callback (used only when the query is non-empty). */
  function Searched(query: string): Contact -> bool
  {
    (c: Contact) => Includes(ToLower(c.name), ToLower(query))
                    || Includes(ToLower(c.role), ToLower(query))
                    || Includes(ToLower(c.company), ToLower(query))
  }

  function Shown(selectedType: string, query: string): Contact -> bool
  {
    (c: Contact) => TypeMatches(c, selectedType) && SearchMatches(c, query)
  }

  /** The contacts both controls let through, in their original order. */
  function VisibleContacts(contacts: seq<Contact>, selectedType: string, query: string): (r: seq<Contact>)
    ensures forall c :: c in r <==> c in contacts && TypeMatches(c, selectedType) && SearchMatches(c, query)
  {
    Filter(contacts, Shown(selectedType, query))
  }

  /** The visible contacts keep the original order and add nothing. */
  lemma VisibleSubsequence(contacts: seq<Contact>, selectedType: string, query: string)
    ensures IsSubsequence(VisibleContacts(contacts, selectedType, query), contacts)
  {
    FilterIsSubsequence(contacts, Shown(selectedType, query));
  }

  /** With type "all" and an empty query every contact is listed, in the original order. */
  lemma DefaultsListEverything(contacts: seq<Contact>)
    ensures VisibleContacts(contacts, "all", "") == contacts
  {
    FilterKeepsAll(contacts, Shown("all", ""));
  }

  /**
   * The effect's two steps, each taken only when its control is set, give
   * the conjunction of the two controls.
   */
  lemma {:induction false} StepsAreConjunction(contacts: seq<Contact>, selectedType: string, query: string)
    ensures selectedType == "all" && query == "" ==>
      contacts == VisibleContacts(contacts, selectedType, query)
    ensures selectedType != "all" && query == "" ==>
      Filter(contacts, OfType(selectedType)) == VisibleContacts(contacts, selectedType, query)
    ensures selectedType == "all" && query != "" ==>
      Filter(contacts, Searched(query)) == VisibleContacts(contacts, selectedType, query)
    ensures selectedType != "all" && query != "" ==>
      Filter(Filter(contacts, OfType(selectedType)), Searched(query)) == VisibleContacts(contacts, selectedType, query)
  {
    var p, q, both := OfType(selectedType), Searched(query), Shown(selectedType, query);
    if selectedType == "all" && query == "" {
      FilterKeepsAll(contacts, both);
    } else if selectedType != "all" && query == "" {
      FilterAgree(contacts, p, both);
    } else if selectedType == "all" {
      FilterAgree(contacts, q, both);
    } else {
      FilterTwice(contacts, p, q, both);
    }
  }

  /** `getStatusColor`: green when online, yellow when busy, gray for anything else. */
  function StatusColor(status: string): (r: string)
    ensures r == "bg-green-400" <==> status == "online"
    ensures r == "bg-yellow-400" <==> status == "busy"
    ensures r == "bg-gray-400" <==> status != "online" && status != "busy"
  {
    match status
    case "online" => "bg-green-400"
    case "busy" => "bg-yellow-400"
    case _ => "bg-gray-400"
  }

  /** `getTypeBadgeColor`: a colour per known type, gray for anything else. */
  function TypeBadgeColor(contactType: string): (r: string)
    ensures r == "bg-gray-100 text-gray-700 border-gray-200" <==> contactType !in ContactTypes
  {
    match contactType
    case "recruiter" => "bg-blue-100 text-blue-700 border-blue-200"
    case "developer" => "bg-green-100 text-green-700 border-green-200"
    case "ai" => "bg-purple-100 text-purple-700 border-purple-200"
    case "collaborator" => "bg-orange-100 text-orange-700 border-orange-200"
    case _ => "bg-gray-100 text-gray-700 border-gray-200"
  }

  /** `recentContacts`: the first four contacts. */
  function RecentContacts(contacts: seq<Contact>): (r: seq<Contact>)
    ensures |r| == if |contacts| < 4 then |contacts| else 4
    ensures r == contacts[..|r|]
  {
    Take(contacts, 4)
  }

  /** The picker's state: the two controls and the list the effect last computed. */
  class ContactPicker {
    const contacts: seq<Contact>
    var searchQuery: string
    var selectedType: string
    var filteredContacts: seq<Contact>

    /** The listed contacts are those both controls let through. */
    ghost predicate Valid()
      reads this
    {
      filteredContacts == VisibleContacts(contacts, selectedType, searchQuery)
    }

    constructor (contacts: seq<Contact>)
      ensures this.contacts == contacts
      ensures searchQuery == "" && selectedType == "all" && filteredContacts == contacts
      ensures Valid()
    {
      this.contacts := contacts;
      searchQuery, selectedType, filteredContacts := "", "all", contacts;
      DefaultsListEverything(contacts);
    }

    /** The effect: start from every contact, narrow by type if one is chosen, then by the query if it is non-empty. */
    method ApplyFilters()
      modifies this`filteredContacts
      ensures Valid()
    {
      StepsAreConjunction(contacts, selectedType, searchQuery);
      var filtered := contacts;
      if selectedType != "all" {
        filtered := Filter(filtered, OfType(selectedType));
      }
      if searchQuery != "" {
        filtered := Filter(filtered, Searched(searchQuery));
      }
      filteredContacts := filtered;
    }

    /** Typing in the search box; the effect runs on the new query. */
    method SetSearchQuery(query: string)
      modifies this`searchQuery, this`filteredContacts
      ensures searchQuery == query && selectedType == old(selectedType)
      ensures Valid()
    {
      searchQuery := query;
      ApplyFilters();
    }

    /** Choosing a type; the effect runs on the new type. */
    method SetSelectedType(t: string)
      modifies this`selectedType, this`filteredContacts
      ensures selectedType == t && searchQuery == old(searchQuery)
      ensures Valid()
    {
      selectedType := t;
      ApplyFilters();
    }

    /** "Clear filters": back to an empty query and every type, so every contact is listed and the recent strip returns. */
    method ClearFilters()
      modifies this`searchQuery, this`selectedType, this`filteredContacts
      ensures searchQuery == "" && selectedType == "all"
      ensures filteredContacts == contacts
      ensures ShowRecent()
      ensures Valid()
    {
      searchQuery, selectedType := "", "all";
      ApplyFilters();
      DefaultsListEverything(contacts);
    }

    /** The recent-contacts strip shows only with no query and every type. */
    predicate ShowRecent()
      reads this
    {
      searchQuery == "" && selectedType == "all"
    }

    /** The list heading: "Search Results" with the listed count while searching, otherwise the suggestions title. */
    function Heading(): (r: string)
      reads this
      ensures searchQuery == "" <==> r == "Suggested Contacts"
      ensures searchQuery != "" ==> ShowsNumber(r, "Search Results (", |filteredContacts|, ")")
    {
      if searchQuery != "" then
        var r := "Search Results (" + Decimal(|filteredContacts|) + ")";
        DecimalShown("Search Results (", |filteredContacts|, ")");
        assert r[1] != "Suggested Contacts"[1];
        r
      else "Suggested Contacts"
    }

    /** The count beside the heading: absent for an empty list, otherwise the count and "contact", plural unless it is one. */
    function CountLabel(): (r: Option<string>)
      reads this
      ensures r == None <==> |filteredContacts| == 0
      ensures r != None ==> (|filteredContacts| == 1 <==> r.value == "1 contact")
      ensures r != None ==> ShowsNumber(r.value, "", |filteredContacts|, " " + Plural("contact", |filteredContacts|))
    {
      var n := |filteredContacts|;
      if n == 0 then None
      else
        CountedWord(n, "contact");
        Some(Decimal(n) + " " + Plural("contact", n))
    }
  }
}
