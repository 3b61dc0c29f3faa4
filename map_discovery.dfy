/** The discovery map's list logic (components/MapDiscovery.tsx): a category
    filter over the seed postings, a selected posting shown in a card, and
    the card's "Apply & Message" action. Drawing the map itself is not
    modelled. */
module MapDiscovery {
  import opened Types
  import Seqs
  import Seed

  /** The filter buttons, in display order. There is no 'Management'
      button, although postings may carry that category. */
  const Categories: seq<string> := ["All", "Tech", "Design", "Engineering", "Marketing"]

  /** The filter applied to a list of postings: everything under 'All',
      otherwise the postings whose category is named by the filter. */
  function FilterPostings(postings: seq<Posting>, filter: string): seq<Posting>
  {
    if filter == "All" then postings
    else Seqs.Filter(postings, (p: Posting) => CategoryName(p.category) == filter)
  }

  /** `filteredPostings`. */
  function FilteredPostings(filter: string): seq<Posting>
  {
    FilterPostings(Seed.MockPostings, filter)
  }

  /** Any filter keeps the list's order and drops only postings of other
      categories; 'All' drops nothing. */
  lemma FilterPostingsSelect(postings: seq<Posting>, filter: string)
    ensures Seqs.IsSubsequence(FilterPostings(postings, filter), postings)
    ensures filter == "All" ==> FilterPostings(postings, filter) == postings
    ensures filter != "All" ==>
              forall p :: p in FilterPostings(postings, filter) <==> p in postings && CategoryName(p.category) == filter
  {
    var keep := (p: Posting) => CategoryName(p.category) == filter;
    if filter == "All" {
      Seqs.FilterKeepsAll(postings, (p: Posting) => true);
      Seqs.FilterSubsequence(postings, (p: Posting) => true);
    } else {
      Seqs.FilterMembers(postings, keep);
      Seqs.FilterSubsequence(postings, keep);
    }
  }

  /** A 'Management' posting is shown under 'All' and under no other
      button. */
  lemma ManagementOnlyUnderAll(postings: seq<Posting>, filter: string, p: Posting)
    requires filter in Categories && p.category == Management
    ensures p in FilterPostings(postings, filter) <==> filter == "All" && p in postings
  {
    if filter != "All" {
      FilterPostingsSelect(postings, filter);
      assert CategoryName(p.category) != filter;
    }
  }

  /** Concretely: 'Tech' shows the one fintech posting, 'Design' the one
      design posting. */
  lemma SeedFilters()
    ensures FilteredPostings("Tech") == [Seed.P4]
    ensures FilteredPostings("Design") == [Seed.P1]
  {
    SeedByCategory("Tech");
    SeedByCategory("Design");
    assert "Design" != "Tech" && "Engineering" != "Tech" && "Marketing" != "Tech";
    assert "Engineering" != "Design" && "Marketing" != "Design";
  }

  /** Under a category button, each seed posting appears exactly when its
      category is the button's, in seed order. */
  lemma SeedByCategory(filter: string)
    requires filter != "All"
    ensures FilteredPostings(filter)
         == (if "Design" == filter then [Seed.P1] else [])
          + (if "Engineering" == filter then [Seed.P2] else [])
          + (if "Marketing" == filter then [Seed.P3] else [])
          + (if "Tech" == filter then [Seed.P4] else [])
  {
    var keep := (p: Posting) => CategoryName(p.category) == filter;
    assert Seed.MockPostings == [Seed.P1] + ([Seed.P2] + ([Seed.P3] + ([Seed.P4] + [])));
    Seqs.FilterCons(Seed.P4, [], keep);
    Seqs.FilterCons(Seed.P3, [Seed.P4], keep);
    Seqs.FilterCons(Seed.P2, [Seed.P3, Seed.P4], keep);
    Seqs.FilterCons(Seed.P1, [Seed.P2, Seed.P3, Seed.P4], keep);
  }

  /** The component: the active filter button and the selected posting. */
  class MapPanel {
    var filter: string
    var selected: Option<Posting>

    constructor ()
      ensures filter == "All" && selected == None
    {
      filter := "All";
      selected := None;
    }

    /** A filter button; the selection, if any, stays. */
    method SetFilter(f: string)
      requires f in Categories
      modifies this`filter
      ensures filter == f
    {
      filter := f;
    }

    /** A marker is drawn for each filtered posting; clicking it selects it. */
    method ClickMarker(p: Posting)
      requires p in FilteredPostings(filter)
      modifies this`selected
      ensures selected == Some(p)
    {
      selected := Some(p);
    }

    /** The card's close button. */
    method CloseCard()
      modifies this`selected
      ensures selected == None
    {
      selected := None;
    }

    /** "Apply & Message", shown only with a card open: hands the selected
        posting to the root's start-chat handler. */
    method ApplyAndMessage() returns (posting: Posting)
      requires selected.Some?
      ensures posting == selected.value
    {
      posting := selected.value;
    }
  }
}
