/** The slot manager of one business (components/SlotManagement.tsx): the
    business's postings, a creation form in a modal, and an open/close
    switch per posting. Nothing removes a posting: the Delete button has no
    handler. */
module SlotManagement {
  import opened Types
  import Seqs
  import Text
  import Seed

  /** Initial list: the seed postings whose company is this business. */
  function InitialPostings(companyName: string): seq<Posting>
  {
    Seqs.Filter(Seed.MockPostings, (p: Posting) => p.companyName == companyName)
  }

  /** The initial list holds exactly the seed postings of the company, in
      seed order. */
  lemma InitialPostingsSelect(companyName: string)
    ensures forall p :: p in InitialPostings(companyName) <==> p in Seed.MockPostings && p.companyName == companyName
    ensures Seqs.IsSubsequence(InitialPostings(companyName), Seed.MockPostings)
  {
    Seqs.FilterMembers(Seed.MockPostings, (p: Posting) => p.companyName == companyName);
    Seqs.FilterSubsequence(Seed.MockPostings, (p: Posting) => p.companyName == companyName);
  }

  /** The default business ('Nexus Labs') starts with its one seed posting. */
  lemma NexusLabsStartsWithP1()
    ensures InitialPostings("Nexus Labs") == [Seed.P1]
  {
    var keep := (p: Posting) => p.companyName == "Nexus Labs";
    assert Seed.P2.companyName[0] != 'N' && Seed.P3.companyName[0] != 'N' && Seed.P4.companyName[0] != 'N';
    assert Seed.MockPostings == [Seed.P1] + ([Seed.P2] + ([Seed.P3] + ([Seed.P4] + [])));
    Seqs.FilterCons(Seed.P4, [], keep);
    Seqs.FilterCons(Seed.P3, [Seed.P4], keep);
    Seqs.FilterCons(Seed.P2, [Seed.P3, Seed.P4], keep);
    Seqs.FilterCons(Seed.P1, [Seed.P2, Seed.P3, Seed.P4], keep);
  }

  /** `skills.split(',').map(s => s.trim())`: one skill per comma-separated
      piece of the input, in order, with the piece's surrounding white space
      cut. */
  function ParseSkills(input: string): (r: seq<string>)
    ensures |r| == Text.Count(input, ',') + 1
    ensures forall k :: 0 <= k < |r| ==> r[k] == Text.Trim(Text.Split(input, ',')[k])
    ensures forall k :: 0 <= k < |r| ==> ',' !in r[k]
    ensures forall k :: 0 <= k < |r| ==> r[k] == Text.Trim(r[k])
  {
    var parts := Text.Split(input, ',');
    seq(|parts|, (k: int) requires 0 <= k < |parts| => TrimmedPiece(parts[k]))
  }

  /** A trimmed comma-free piece is comma-free and trimmed. */
  function TrimmedPiece(piece: string): (r: string)
    requires ',' !in piece
    ensures ',' !in r && r == Text.Trim(r)
  {
    var r := Text.Trim(piece);
    Text.TrimIdempotent(piece);
    r
  }

  /** Writing comma-free pieces separated by commas, each padded with any
      white space, and parsing gives back each piece with its padding cut,
      as in the form's hint "Figma, React, etc.". */
  lemma ParseSkillsPadded(pieces: seq<string>)
    requires |pieces| >= 1
    requires forall k :: 0 <= k < |pieces| ==> ',' !in pieces[k]
    ensures var r := ParseSkills(Text.Join(pieces, ','));
            |r| == |pieces| && forall k :: 0 <= k < |r| ==> r[k] == Text.Trim(pieces[k])
  {
    Text.SplitJoin(pieces, ',');
  }

  /** Writing already-trimmed, comma-free skills separated by bare commas
      and parsing gives them back unchanged. */
  lemma ParseSkillsJoin(skills: seq<string>)
    requires |skills| >= 1
    requires forall k :: 0 <= k < |skills| ==> ',' !in skills[k] && Text.Trim(skills[k]) == skills[k]
    ensures ParseSkills(Text.Join(skills, ',')) == skills
  {
    ParseSkillsPadded(skills);
  }

  /** The hint's own shape: two trimmed skills written with a comma and a
      space, as in "Figma, React", come back as the two skills. */
  lemma ParseSkillsCommaSpace(a: string, b: string)
    requires ',' !in a && ',' !in b && Text.Trim(a) == a && Text.Trim(b) == b
    ensures ParseSkills(a + ", " + b) == [a, b]
  {
    var pieces := [a, " " + b];
    assert Text.Join([" " + b], ',') == " " + b;
    assert Text.Join(pieces, ',') == a + ", " + b;
    ParseSkillsPadded(pieces);
    Text.TrimAfterSpace(b);
  }

  /** Empty pieces are kept rather than dropped: an empty field yields one
      empty skill, and a lone comma two. */
  lemma ParseSkillsKeepsEmpty()
    ensures ParseSkills("") == [""]
    ensures ParseSkills(",") == ["", ""]
  {
    assert Text.Split(",", ',') == [[]] + Text.Split("", ',');
  }

  /** The modal's fields. */
  datatype SlotForm = SlotForm(title: string, description: string, category: Category, slots: int, skills: string)

  /** The form's initial and post-submit contents. */
  const EmptyForm := SlotForm("", "", Tech, 1, "")

  /** The posting `handleAddSlot` builds; `id` stands for the clock-based id. */
  function NewPosting(companyName: string, form: SlotForm, id: string): (p: Posting)
    ensures p.id == id && p.companyName == companyName && p.status == Active
    ensures p.title == form.title && p.description == form.description
    ensures p.category == form.category && p.slotsAvailable == form.slots
    ensures p.requiredSkills == ParseSkills(form.skills)
  {
    Posting(id, companyName, form.title, form.description, "Office HQ, Tech District",
            14.5995, 120.9842, ParseSkills(form.skills), form.slots, Active, form.category)
  }

  function Flip(s: PostingStatus): PostingStatus
  {
    if s == Active then ClosedPosting else Active
  }

  /** `toggleStatus`: flips ACTIVE and CLOSED on the postings with that id. */
  function ToggleStatus(postings: seq<Posting>, id: string): (r: seq<Posting>)
    ensures |r| == |postings|
    ensures forall k :: 0 <= k < |r| && postings[k].id != id ==> r[k] == postings[k]
    ensures forall k :: 0 <= k < |r| && postings[k].id == id ==>
              r[k] == postings[k].(status := r[k].status) && r[k].status != postings[k].status
  {
    seq(|postings|, (k: int) requires 0 <= k < |postings| =>
      if postings[k].id == id then postings[k].(status := Flip(postings[k].status)) else postings[k])
  }

  /** Toggling twice is the identity; an unknown id changes nothing. */
  lemma ToggleInvolution(postings: seq<Posting>, id: string)
    ensures ToggleStatus(ToggleStatus(postings, id), id) == postings
    ensures (forall k :: 0 <= k < |postings| ==> postings[k].id != id) ==> ToggleStatus(postings, id) == postings
  {
  }

  /** The component's state. */
  class SlotManager {
    const companyName: string
    var postings: seq<Posting>
    var isAdding: bool
    var form: SlotForm

    constructor (companyName: string)
      ensures this.companyName == companyName
      ensures postings == InitialPostings(companyName) && !isAdding && form == EmptyForm
    {
      this.companyName := companyName;
      postings := InitialPostings(companyName);
      isAdding := false;
      form := EmptyForm;
    }

    /** "Create New Slot" and the modal's close button. */
    method SetAdding(open: bool)
      modifies this`isAdding
      ensures isAdding == open
    {
      isAdding := open;
    }

    /** The modal's field handlers. */
    method SetForm(f: SlotForm)
      modifies this`form
      ensures form == f
    {
      form := f;
    }

    /** `handleAddSlot`: prepend the new posting, close the modal and reset
        the form. The browser submits the form only with a title, a
        description, a skills line and at least one slot. */
    method HandleAddSlot(id: string)
      requires form.title != [] && form.description != [] && form.skills != [] && form.slots >= 1
      modifies this`postings, this`isAdding, this`form
      ensures postings == [NewPosting(companyName, old(form), id)] + old(postings)
      ensures postings[1..] == old(postings) && |postings| == |old(postings)| + 1
      ensures postings[0].slotsAvailable >= 1 && postings[0].title != []
      ensures !isAdding && form == EmptyForm
    {
      postings := [NewPosting(companyName, form, id)] + postings;
      isAdding := false;
      form := EmptyForm;
    }

    method HandleToggle(id: string)
      modifies this`postings
      ensures postings == ToggleStatus(old(postings), id)
      ensures |postings| == |old(postings)|
    {
      postings := ToggleStatus(postings, id);
    }
  }
}
