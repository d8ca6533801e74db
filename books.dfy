/**
 * The in-memory book catalog: a global list of book dicts with a first-match
 * lookup by title, a filter by author, an append, an update that replaces
 * every book with the body's title, and a delete that pops the first such
 * book and leaves the loop.
 */
module Books {
  import opened Results
  import opened Dicts

  const TitleKey := "title"
  const AuthorKey := "author"
  const CategoryKey := "category"

  function Book(title: string, author: string, category: string): Dict
  {
    map[TitleKey := JString(title), AuthorKey := JString(author), CategoryKey := JString(category)]
  }

  /** The catalog the module starts with. */
  const InitialBooks: seq<Dict> := [
    Book("Title One", "Author One", "science"),
    Book("Title Two", "Author Two", "science"),
    Book("Title Three", "Author Three", "history"),
    Book("Title Four", "Author Four", "math"),
    Book("Title Five", "Author Five", "math"),
    Book("Title Six", "Author Two", "math")
  ]

  /** One iteration of the update: a book whose title fold-equals the body's is replaced by the whole body. */
  function ReplaceStep(body: Dict, d: Dict): (r: Result<Dict, PyError>)
    ensures r.Err? <==> !HasText(d, TitleKey) || !HasText(body, TitleKey)
    ensures r.Ok? ==> r.value == (if Matches(d, TitleKey, body[TitleKey].text) then body else d)
  {
    match FieldAgrees(d, body, TitleKey)
    case Err(e) => Err(e)
    case Ok(m) => Ok(if m then body else d)
  }

  function ReplaceStepFor(body: Dict): Dict -> Result<Dict, PyError>
  {
    d => ReplaceStep(body, d)
  }

  class Catalog {
    var books: seq<Dict>

    constructor ()
      ensures books == InitialBooks
    {
      books := InitialBooks;
    }

    /** The whole catalog, as it is. */
    method ReadAllBooks() returns (r: seq<Dict>)
      ensures r == books
    {
      r := books;
    }

    /**
     * The first book whose title fold-equals `bookTitle`, or nothing when no
     * title does; a book without a text title met before any match raises
     * AttributeError.
     */
    method ReadBook(bookTitle: string) returns (r: Result<Option<Dict>, PyError>)
      ensures match SearchFrom(books, TitleKey, bookTitle, 0)
        case Ok(Some(k)) => r == Ok(Some(books[k]))
        case Ok(None) => r == Ok(None)
        case Err(e) => r == Err(e)
    {
      var i := 0;
      while i < |books|
        invariant 0 <= i <= |books|
        invariant SearchFrom(books, TitleKey, bookTitle, 0) == SearchFrom(books, TitleKey, bookTitle, i)
      {
        var m := FieldMatches(books[i], TitleKey, bookTitle);
        if m.Err? {
          return Err(m.error);
        }
        if m.value {
          return Ok(Some(books[i]));
        }
        i := i + 1;
      }
      return Ok(None);
    }

    /** The books whose author fold-equals `bookAuthor`. */
    method ReadAuthor(bookAuthor: string) returns (r: Result<seq<Dict>, PyError>)
      ensures r == Filter(books, Equals(AuthorKey, bookAuthor))
    {
      r := Filter(books, Equals(AuthorKey, bookAuthor));
    }

    /** Appends the body as it came. */
    method CreateBook(newBook: Dict)
      modifies this
      ensures books == old(books) + [newBook]
    {
      books := books + [newBook];
    }

    /** Replaces, in list order, every book whose title fold-equals the body's by the body. */
    method UpdateBook(updatedBook: Dict) returns (err: Option<PyError>)
      modifies this
      ensures (books, err) == Sweep(old(books), ReplaceStepFor(updatedBook), 0)
    {
      var i := 0;
      while i < |books|
        invariant 0 <= i <= |books|
        invariant Sweep(old(books), ReplaceStepFor(updatedBook), 0) == Sweep(books, ReplaceStepFor(updatedBook), i)
      {
        var r := ReplaceStep(updatedBook, books[i]);
        if r.Err? {
          return Some(r.error);
        }
        books := books[i := r.value];
        i := i + 1;
      }
      return None;
    }

    /** Pops the first book whose title fold-equals `bookTitle`, if any. */
    method DeleteBook(bookTitle: string) returns (err: Option<PyError>)
      modifies this
      ensures match SearchFrom(old(books), TitleKey, bookTitle, 0)
        case Ok(Some(k)) => books == old(books)[..k] + old(books)[k + 1..] && err == None
        case Ok(None) => books == old(books) && err == None
        case Err(e) => books == old(books) && err == Some(e)
    {
      books, err := RemoveFirstMatch(books, TitleKey, bookTitle);
    }
  }

  /**
   * When every book and the body have a text title, the update raises
   * nothing, keeps the length, puts the body in place of every book whose
   * title fold-equals the body's and leaves the other books as they were.
   */
  lemma UpdateBookEffect(s: seq<Dict>, body: Dict) returns (t: seq<Dict>, err: Option<PyError>)
    requires forall j :: 0 <= j < |s| ==> HasText(s[j], TitleKey)
    requires HasText(body, TitleKey)
    ensures (t, err) == Sweep(s, ReplaceStepFor(body), 0)
    ensures err == None && |t| == |s|
    ensures forall j :: 0 <= j < |s| ==>
      t[j] == if Matches(s[j], TitleKey, body[TitleKey].text) then body else s[j]
    ensures (forall j :: 0 <= j < |s| ==> Misses(s[j], TitleKey, body[TitleKey].text)) ==> t == s
  {
    t, err := Sweep(s, ReplaceStepFor(body), 0).0, Sweep(s, ReplaceStepFor(body), 0).1;
    SweepEffect(s, ReplaceStepFor(body), 0);
  }

  /**
   * With every title a text, the search behind the lookup and the delete
   * never raises, and it finds nothing exactly when no title fold-matches.
   */
  lemma TitleSearchWellFormed(s: seq<Dict>, bookTitle: string)
    requires forall j :: 0 <= j < |s| ==> HasText(s[j], TitleKey)
    ensures SearchFrom(s, TitleKey, bookTitle, 0).Ok?
    ensures SearchFrom(s, TitleKey, bookTitle, 0).value.None? <==>
      forall j :: 0 <= j < |s| ==> !Matches(s[j], TitleKey, bookTitle)
  {
  }
}
