/** The note record the remote API returns, and its closed tag enumeration. */
module Note {
  import opened Wrappers

  /** The five tags a note may carry. */
  datatype NoteTag = Todo | Work | Personal | Meeting | Shopping

  /** A note as the API returns it; the id is assigned by the server. */
  datatype Note = Note(id: string, title: string, content: string, tag: NoteTag)

  /** The string literal that stands for a tag, in the order the form lists them. */
  function TagName(t: NoteTag): string {
    match t
    case Todo => "Todo"
    case Work => "Work"
    case Personal => "Personal"
    case Meeting => "Meeting"
    case Shopping => "Shopping"
  }

  const TagNames: seq<string> := ["Todo", "Work", "Personal", "Meeting", "Shopping"]

  /** Reads a tag literal back; any other string is not a tag. */
  function ParseTag(s: string): (r: Option<NoteTag>)
    ensures r.Some? <==> s in TagNames
    ensures r.Some? ==> TagName(r.value) == s
  {
    if s == "Todo" then Some(Todo)
    else if s == "Work" then Some(Work)
    else if s == "Personal" then Some(Personal)
    else if s == "Meeting" then Some(Meeting)
    else if s == "Shopping" then Some(Shopping)
    else None
  }

  /** Every tag has a literal in the list, and reading the literal back gives the tag. */
  lemma TagRoundTrip(t: NoteTag)
    ensures TagName(t) in TagNames
    ensures ParseTag(TagName(t)) == Some(t)
  {
  }
}
