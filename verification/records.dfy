/** Values exchanged with the backend: users, authors, fact records and
    drafts, the settled outcome of one SDK call, and the shallow merge
    (`{...f, ...p}`) the controller applies to a fact it updated. */
module Records {

  datatype Option<+T> = None | Some(value: T)

  /** Identifiers are opaque values assigned by the backend. */
  type Id = string

  /** The signed-in user as `me()` returns it. */
  datatype User = User(id: Id, name: string, email: string)

  /** The author of a fact as the `include: ['author']` join resolves it;
      either attribute may be missing. */
  datatype Author = Author(id: Option<Id>, name: Option<string>)

  /** A fact as a plain object. Every attribute may be absent (`None`),
      which is what a shallow merge has to tell apart. The same shape is
      the patch an update sends and the record the backend returns. */
  datatype Fact = Fact(
    id: Option<Id>,
    title: Option<string>,
    content: Option<string>,
    category: Option<string>,
    author: Option<Author>,
    createdAt: Option<string>)

  /** The object with no attributes at all. */
  const Blank := Fact(None, None, None, None, None, None)

  /** Every attribute is present. */
  predicate Complete(p: Fact)
  {
    p.id.Some? && p.title.Some? && p.content.Some? && p.category.Some? &&
    p.author.Some? && p.createdAt.Some?
  }

  /** The new-fact form's contents, sent as they are to `create`. */
  datatype Draft = Draft(title: string, content: string, category: string)

  /** How an awaited SDK call settled: fulfilled with a value, or rejected
      with an error whose `message` may be missing. */
  datatype Settled<+T> = Fulfilled(value: T) | Rejected(message: Option<string>)

  /** One attribute of a spread: the later object's attribute wins when it
      has one. */
  function Pick<T>(earlier: Option<T>, later: Option<T>): Option<T>
  {
    if later.Some? then later else earlier
  }

  /** Object spread `{...f, ...p}`: attributes present in `p` overwrite,
      every other attribute of `f` is kept. */
  function Merge(f: Fact, p: Fact): (r: Fact)
    ensures p.id.Some? ==> r.id == p.id
    ensures p.id.None? ==> r.id == f.id
    ensures p.title.Some? ==> r.title == p.title
    ensures p.title.None? ==> r.title == f.title
    ensures p.content.Some? ==> r.content == p.content
    ensures p.content.None? ==> r.content == f.content
    ensures p.category.Some? ==> r.category == p.category
    ensures p.category.None? ==> r.category == f.category
    ensures p.author.Some? ==> r.author == p.author
    ensures p.author.None? ==> r.author == f.author
    ensures p.createdAt.Some? ==> r.createdAt == p.createdAt
    ensures p.createdAt.None? ==> r.createdAt == f.createdAt
  {
    Fact(Pick(f.id, p.id), Pick(f.title, p.title), Pick(f.content, p.content),
         Pick(f.category, p.category), Pick(f.author, p.author),
         Pick(f.createdAt, p.createdAt))
  }

  /** Spreading an empty object changes nothing; spreading a complete one
      replaces everything. */
  lemma MergeExtremes(f: Fact, p: Fact)
    ensures Merge(f, Blank) == f
    ensures Complete(p) ==> Merge(f, p) == p
  {
  }

  /** Merging the same patch twice is merging it once, and two successive
      merges are one merge of the combined patch. */
  lemma MergeIdempotentAndAssociative(f: Fact, p: Fact, q: Fact)
    ensures Merge(Merge(f, p), p) == Merge(f, p)
    ensures Merge(Merge(f, p), q) == Merge(f, Merge(p, q))
  {
  }
}
