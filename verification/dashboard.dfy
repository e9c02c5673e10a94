/** The dashboard's own state: the new-fact draft and the single fact being
    edited, the handlers that replace them, and the pure decisions the list
    rendering makes (edit mode, ownership controls, author name). A handler
    that calls back into the controller returns what it passes. */
module Dashboard {
  import opened Records

  /** The choices of both category selects. */
  datatype Category = Nutritional | Historical | FunFact | Culinary

  /** The option labels, in display order. */
  const CategoryOptions: seq<string> := ["Nutritional", "Historical", "Fun Fact", "Culinary"]

  function Label(c: Category): (s: string)
    ensures s in CategoryOptions
  {
    match c
    case Nutritional => "Nutritional"
    case Historical => "Historical"
    case FunFact => "Fun Fact"
    case Culinary => "Culinary"
  }

  /** The four categories are exactly the four options, one label each. */
  lemma LabelsAreTheOptions()
    ensures forall c: Category, d: Category :: Label(c) == Label(d) ==> c == d
    ensures forall s :: s in CategoryOptions ==> exists c: Category :: Label(c) == s
  {
    forall s | s in CategoryOptions ensures exists c: Category :: Label(c) == s {
      if s == CategoryOptions[0] {
        assert Label(Nutritional) == s;
      } else if s == CategoryOptions[1] {
        assert Label(Historical) == s;
      } else if s == CategoryOptions[2] {
        assert Label(FunFact) == s;
      } else {
        assert Label(Culinary) == s;
      }
    }
  }

  /** The draft the form starts with and returns to after each submit. */
  const EmptyDraft := Draft("", "", "Fun Fact")

  /** `fact.author?.id` */
  function AuthorId(f: Fact): Option<Id>
  {
    if f.author.Some? then f.author.value.id else None
  }

  /** `user.id === fact.author?.id`: whether Edit and Delete are offered. */
  function ShowsControls(user: User, f: Fact): (r: bool)
    ensures r <==> f.author.Some? && f.author.value.id == Some(user.id)
    ensures f.author.None? ==> !r
  {
    Some(user.id) == AuthorId(f)
  }

  /** `fact.author?.name || 'Unknown'` */
  function AuthorName(f: Fact): (r: string)
    ensures r != ""
    ensures f.author.Some? && f.author.value.name.Some? && f.author.value.name.value != "" ==>
              r == f.author.value.name.value
    ensures f.author.None? || f.author.value.name.None? || f.author.value.name.value == "" ==>
              r == "Unknown"
  {
    var name := if f.author.Some? then f.author.value.name else None;
    if name.Some? && name.value != "" then name.value else "Unknown"
  }

  /** `editingFact && editingFact.id === fact.id`: the fact's card shows
      the edit form instead of the fact. */
  function InEditMode(editing: Option<Fact>, f: Fact): (r: bool)
    ensures editing.None? ==> !r
    ensures editing.Some? ==> (r <==> editing.value.id == f.id)
  {
    editing.Some? && editing.value.id == f.id
  }

  predicate DistinctIds(facts: seq<Fact>)
  {
    forall i, j :: 0 <= i < j < |facts| ==> facts[i].id != facts[j].id
  }

  /** In a list whose ids are distinct, at most one card is in edit mode. */
  lemma AtMostOneInEditMode(facts: seq<Fact>, editing: Option<Fact>)
    requires DistinctIds(facts)
    ensures forall i, j ::
              0 <= i < |facts| && 0 <= j < |facts| && InEditMode(editing, facts[i]) && InEditMode(editing, facts[j])
              ==> i == j
  {
  }

  /** The object update-submit sends: exactly title, content and category
      of the edited copy. */
  function PatchOf(e: Fact): (p: Fact)
    ensures p.id.None? && p.author.None? && p.createdAt.None?
    ensures p.title == e.title && p.content == e.content && p.category == e.category
  {
    Fact(None, e.title, e.content, e.category, None, None)
  }

  class DashboardState {
    var newFact: Draft
    var editingFact: Option<Fact>

    /** The draft's category is always one of the select's options. */
    ghost predicate Valid()
      reads this
    {
      newFact.category in CategoryOptions
    }

    constructor ()
      ensures Valid()
      ensures newFact == EmptyDraft && editingFact.None?
    {
      newFact := EmptyDraft;
      editingFact := None;
    }

    method SetDraftTitle(title: string)
      requires Valid()
      modifies this
      ensures Valid()
      ensures newFact == old(newFact).(title := title) && editingFact == old(editingFact)
    {
      newFact := newFact.(title := title);
    }

    method SetDraftContent(content: string)
      requires Valid()
      modifies this
      ensures Valid()
      ensures newFact == old(newFact).(content := content) && editingFact == old(editingFact)
    {
      newFact := newFact.(content := content);
    }

    method SetDraftCategory(c: Category)
      requires Valid()
      modifies this
      ensures Valid()
      ensures newFact == old(newFact).(category := Label(c)) && editingFact == old(editingFact)
    {
      newFact := newFact.(category := Label(c));
    }

    /** The form's title and content inputs are `required`, so the browser
        submits only a draft with both filled in. */
    method HandleCreateSubmit() returns (sent: Draft)
      requires Valid()
      requires newFact.title != "" && newFact.content != ""
      modifies this
      ensures Valid()
      ensures sent == old(newFact) && sent.title != "" && sent.content != ""
      ensures sent.category in CategoryOptions
      ensures newFact == EmptyDraft && editingFact == old(editingFact)
    {
      sent := newFact;
      newFact := EmptyDraft;
    }

    method StartEditing(f: Fact)
      requires Valid()
      modifies this
      ensures Valid()
      ensures editingFact == Some(f) && newFact == old(newFact)
      ensures forall g :: InEditMode(editingFact, g) <==> g.id == f.id
    {
      editingFact := Some(f);
    }

    method SetEditTitle(title: string)
      requires Valid() && editingFact.Some?
      modifies this
      ensures Valid()
      ensures editingFact == Some(old(editingFact).value.(title := Some(title)))
      ensures newFact == old(newFact)
    {
      editingFact := Some(editingFact.value.(title := Some(title)));
    }

    method SetEditContent(content: string)
      requires Valid() && editingFact.Some?
      modifies this
      ensures Valid()
      ensures editingFact == Some(old(editingFact).value.(content := Some(content)))
      ensures newFact == old(newFact)
    {
      editingFact := Some(editingFact.value.(content := Some(content)));
    }

    method SetEditCategory(c: Category)
      requires Valid() && editingFact.Some?
      modifies this
      ensures Valid()
      ensures editingFact == Some(old(editingFact).value.(category := Some(Label(c))))
      ensures newFact == old(newFact)
    {
      editingFact := Some(editingFact.value.(category := Some(Label(c))));
    }

    /** The edit form exists only while a fact is being edited. */
    method HandleUpdateSubmit() returns (id: Option<Id>, patch: Fact)
      requires Valid() && editingFact.Some?
      modifies this
      ensures Valid()
      ensures id == old(editingFact).value.id && patch == PatchOf(old(editingFact).value)
      ensures editingFact.None? && newFact == old(newFact)
    {
      id, patch := editingFact.value.id, PatchOf(editingFact.value);
      editingFact := None;
    }

    /** Cancel leaves edit mode and sends nothing. */
    method CancelEditing()
      requires Valid()
      modifies this
      ensures Valid()
      ensures editingFact.None? && newFact == old(newFact)
    {
      editingFact := None;
    }
  }
}
