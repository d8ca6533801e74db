# FastAPI CRUD demos: a Dafny model of their record stores

The repository holds small FastAPI services that keep records and expose
create, read, update and delete handlers over them. This project models the
record-store logic behind three of them and proves what each handler does to
its store.

- **`pim.py`, the in-memory project registry.** A global list of project dicts
  (`Pim` module, class `ProjectRegistry`). It has two fold-equality filters,
  an unvalidated append, and an index loop that rewrites `latest overall
  progress`. It also has a delete loop that pops from the list it is scanning
  and never leaves the loop. The model follows that loop exactly: the
  removal happens, and then the call raises an error unless the first match
  was the last element. That error is `IndexError` when every project number
  is a string.
- **`books.py`, the in-memory book catalog** (`Books` module, class `Catalog`):
  - a first-match lookup by title;
  - a filter by author;
  - an append;
  - an update that replaces every book with the body's title;
  - a delete that pops the first match and leaves the loop.
- **`PIMApp/main.py`, the database-backed project tracker** (`PimApp` module,
  class `ProjectStore`). It has the field bounds of the `ProjectRequest` and
  `ProjectUpdate` bodies and the path-parameter bounds. Its handlers read,
  update and delete the first row matching an id or an exact project number,
  and answer NotFound when none matches. The `pim` table is the sequence of
  its rows.

The in-memory records are dicts decoded from JSON bodies: `Dicts.Dict` is a
`map<string, Json>`. So `d.get(key).casefold()` fails on a missing key or a
non-string value the way Python does, with `AttributeError`. The shared
operations live in module `Dicts`:
- the comprehension filter (`Filter`);
- the first-match scan (`SearchFrom`);
- the pop-then-break removal (`RemoveFirstMatch`);
- the record-rewriting index loop (`Sweep`).

`str.casefold` is `Dicts.Fold`. Every property about the handlers uses it
only through `Fold(a) == Fold(b)`. Errors are values: `PyError` for the
in-memory demos, `ApiError` (`Invalid` for a 422 answer, `NotFound` for a 404)
for the database one.

Facts about the code that the model keeps:
- The database version's `delete_project` deletes by id (PIMApp/main.py:83-91).
- Engineer and customer need 3 to 50 characters (PIMApp/main.py:28-29).
- The database version's `update_progress` looks the row up by the path's number. The body's number is validated and then ignored (PIMApp/main.py:70-77).
- No handler checks that a project number is new before appending or adding (pim.py:37, PIMApp/main.py:63-66).
- The database version never computes an id itself: `PIM(**project_request.model_dump())` leaves it to the database (PIMApp/main.py:63).

## Model

| member | source | states |
|---|---|---|
| `Dicts.FoldedField` | pim.py:26 | `d.get(key).casefold()` succeeds exactly when `key` holds a string, and then yields its fold; otherwise AttributeError |
| `Dicts.FieldMatches` | books.py:33 | the comparison with a query raises exactly when the field is not a string, and is true exactly when the field fold-equals the query |
| `Dicts.FieldAgrees` | pim.py:43 | comparing a record's field with the body's raises AttributeError when either is not a string, and is true exactly when they fold-equal |
| `Dicts.Test` | pim.py:31-32 | the `and` condition evaluates in Python's order: the second comparison runs only when the first holds; the result is true exactly when the record is selected |
| `Dicts.Filter` | pim.py:26 | the comprehension raises AttributeError exactly when some record cannot be tested; otherwise it keeps exactly the selected records, with their multiplicity, as a subsequence of the list |
| `Dicts.BothWithinFirst` | pim.py:31-32 | the team-and-engineer result exists only when the team-only result does, and is a subsequence of it |
| `Dicts.SearchFrom` | books.py:32-34 | the scan finds nothing exactly when every record is a text non-match; a found index is the first match with only non-matches before it; an error comes from a non-text record before any match |
| `Dicts.RemoveFirstMatch` | books.py:56-59 | pop-then-break removes exactly the first match and keeps the rest in order; with no match, or an error before a match, the list is unchanged |
| `Dicts.Sweep` | pim.py:42-44 | the index loop over the list from a given index, rewriting each record by a step: the list keeps its length, and the loop ends without an error exactly when every step from that index succeeds (also books.py:49-51) |
| `Dicts.SweepEffect` | pim.py:42-44 | the index loop keeps the length; it succeeds exactly when every step does and then rewrites each record by its step; on an error the earlier records are rewritten and the rest are untouched |
| `Dicts.SubsequenceOfRemoval` | pim.py:51 | popping one element leaves a subsequence of the list |
| `Pim.ProjectRegistry.constructor` | pim.py:5-16 | the registry starts with the five listed projects |
| `Pim.ProjectRegistry.GetAllProjects` | pim.py:19-21 | returns the list itself and changes nothing |
| `Pim.ProjectRegistry.ReadTeamQuery` | pim.py:24-26 | returns the fold-equality filter of the projects on `team` and changes nothing |
| `Pim.ProjectRegistry.ReadTeamEngineerQuery` | pim.py:29-32 | returns the filter on `team` and `infra engineer`, evaluated with a short-circuit `and`, and changes nothing |
| `Pim.ProjectRegistry.CreateProject` | pim.py:35-37 | the new list is the old list followed by the body, with no check of its fields or of number uniqueness |
| `Pim.ProjectRegistry.UpdateProgress` | pim.py:40-44 | the new list and the raised error are those of running the progress step over every index in order |
| `Pim.UpdateProgressEffect` | pim.py:42-44 | with text numbers everywhere and a progress entry in the body: no error; length kept; every fold-matching project gets the body's progress and keeps its other entries; other projects are unchanged |
| `Pim.UpdateProgressWithoutProgress` | pim.py:44 | a body without a progress entry raises KeyError at the first match, and the list is unchanged |
| `Pim.ProjectRegistry.DeleteProject` | pim.py:47-51 | the new list and the raised error are those of the loop as written, over the original length |
| `Pim.DeleteLoop` | pim.py:49-51 | the delete loop as written from iteration `i` (a match is popped without leaving the loop): the list never grows, the loop never raises KeyError, and it raises AttributeError only when some project number is not a string |
| `Pim.ProgressStep` | pim.py:43-44 | one iteration of the progress update: it raises AttributeError exactly when either project number is not a string, and KeyError exactly when the numbers fold-match and the body has no progress; on success only the progress entry can change or be added |
| `Pim.DeleteWithoutMatch` | pim.py:49-51 | with no project fold-matching, the list is unchanged and nothing is raised |
| `Pim.DeleteFirstMatchAt` | pim.py:49-51 | with the first match at `k`: it is removed and earlier projects stay; only matches are removed and the rest stay in order; the call finishes cleanly exactly when `k` is the last index; otherwise the project that slid into slot `k` is kept and the call raises, with IndexError when every number is a text |
| `Pim.DeleteLoopFailsAfterPop` | pim.py:49-51 | once a pop has shortened the list below the loop bound, the loop ends with an error, IndexError when every number is a text |
| `Pim.DeleteLoopRemovesOnlyMatches` | pim.py:49-51 | the loop only removes records, each one a fold-match, and the remaining records keep their order |
| `Pim.DeleteLoopKeepsSlot` | pim.py:49-51 | the loop never changes a slot before the current index |
| `Pim.DeleteLoopNoMatch` | pim.py:49-51 | iterations over non-matching projects leave the list unchanged and raise nothing |
| `Pim.DeleteLoopSkips` | pim.py:49-50 | iterations over non-matching projects can be skipped without changing the outcome |
| `Pim.DeleteSecondInitialProject` | pim.py:49-51 | deleting "QKPH-TEST-0002" from the initial list leaves the other four in order and raises IndexError |
| `Pim.ProjectRegistry.DeleteProjectFirstMatch` | pim.py:49-51 | corrected delete (pop, then break): removes exactly the first match and raises nothing after it |
| `Books.Catalog.constructor` | books.py:5-12 | the catalog starts with the six listed books |
| `Books.Catalog.ReadAllBooks` | books.py:15-17 | returns the catalog itself and changes nothing |
| `Books.Catalog.ReadBook` | books.py:30-34 | returns the first book whose title fold-equals the argument; returns nothing when every title is a text non-match; raises AttributeError at a non-text title met first; changes nothing |
| `Books.Catalog.ReadAuthor` | books.py:37-39 | returns the fold-equality filter of the books on `author` and changes nothing |
| `Books.Catalog.CreateBook` | books.py:42-44 | the new catalog is the old one followed by the body |
| `Books.Catalog.UpdateBook` | books.py:47-51 | the new catalog and the raised error are those of running the replace step over every index in order |
| `Books.ReplaceStep` | books.py:50-51 | one iteration of the update: it raises exactly when either title is not a string; otherwise a book whose title fold-equals the body's becomes the whole body and any other book stays as it was |
| `Books.UpdateBookEffect` | books.py:49-51 | with text titles everywhere: no error; length kept; each book whose title fold-equals the body's becomes the body; others unchanged; with no match the catalog is unchanged |
| `Books.Catalog.DeleteBook` | books.py:54-59 | removes exactly the first fold-matching book and keeps the rest in order; with no match, or an error before one, the catalog is unchanged |
| `Books.TitleSearchWellFormed` | books.py:56-59 | with text titles everywhere the title scan never raises, and it finds nothing exactly when no title fold-matches |
| `PimApp.RequestViolations` | PIMApp/main.py:25-31 | the fields it reports are body fields only; it never names a path parameter |
| `PimApp.UpdateViolations` | PIMApp/main.py:34-36 | only the project number and the progress can be reported |
| `PimApp.RequestValidation` | PIMApp/main.py:25-31 | a create body is accepted exactly when number 14-17, team 2-3, engineer 3-50, customer 3-50 and name 1-100 characters long and progress 0-100; each violation names its field |
| `PimApp.UpdateValidation` | PIMApp/main.py:34-36 | an update body is accepted exactly when its number has 14-17 characters and its progress is 0-100 |
| `PimApp.ValidationEdges` | PIMApp/main.py:26-31 | progress 150 and a 13-character number are refused; progress 0 and 100 and numbers of 14 and 17 characters are accepted |
| `PimApp.FindFirst` | PIMApp/main.py:46 | `filter(...).first()` gives no row exactly when none matches, and otherwise the first matching row |
| `PimApp.ProjectStore.ReadAll` | PIMApp/main.py:39-41 | returns every row, unchanged |
| `PimApp.ProjectStore.ReadProjectById` | PIMApp/main.py:44-49 | a non-positive id is a validation error; NotFound exactly when no row has the id; Ok exactly when the id is positive and some row has it, and then a stored row with that id, the only one when ids are distinct |
| `PimApp.ProjectStore.ReadProjectByNumber` | PIMApp/main.py:52-58 | a number outside 14-17 characters is a validation error; NotFound exactly when no row's number is equal; Ok exactly when the number is valid and some row has it, and then the first row with exactly that number |
| `PimApp.ProjectStore.CreateProject` | PIMApp/main.py:61-66 | an invalid body is refused with its failing fields and nothing changes; otherwise exactly one row with the body's fields and a fresh id is appended; the store invariant holds |
| `PimApp.ProjectStore.UpdateProgress` | PIMApp/main.py:69-80 | validation errors change nothing; the lookup uses the path's number; NotFound changes nothing; otherwise only the first match's progress changes; the store invariant holds |
| `PimApp.ProjectStore.DeleteProject` | PIMApp/main.py:83-91 | a non-positive id is a validation error; NotFound changes nothing; otherwise exactly the row with that id is removed and the others keep their order; the store invariant holds |
| `PimApp.LookupAfterCreate` | PIMApp/main.py:62-66 | a created row is found under its fresh id, and earlier lookups still find the same rows |
| `PimApp.LookupAfterDelete` | PIMApp/main.py:84-91 | after a delete the removed id is not found, and every other row is still found under its own id, unchanged |
| `PimApp.LookupAfterUpdate` | PIMApp/main.py:77-80 | a progress update keeps every id in its slot, so lookups by id are unaffected |

## Left out

- HTTP concerns are not modelled: routing, status codes beyond the `Invalid`/`NotFound` split, `Body`/`Path` parsing and `async`. None of these handlers awaits anything, so each one runs as a single step.
- The database session and schema set-up (`get_db`, `Base.metadata.create_all`, `PIMApp/main.py:11-22`) are left out. So are the internals of SQLAlchemy queries, `add`, `commit` and `delete`. The table is a sequence of rows and each commit is the new sequence.
- Id autoincrement belongs to the database. `PimApp.ProjectStore.CreateProject` takes the id the database assigns as a parameter and requires it to be fresh.
- The `unique=True` constraint on `project_number` (`PIMApp/models.py:9`) is not modelled. The database would reject a duplicate at commit and no handler code does.
- A query without `ORDER BY` may return any matching row. `.first()` is modelled as the first match in table order.
- `PimApp.ProjectStore.Valid` assumes the table is written only through these handlers.
- `str.casefold` is modelled only for ASCII letters (`Dicts.Fold`). The proofs about handlers do not depend on how it folds. Only `Pim.DeleteSecondInitialProject` uses its ASCII behaviour on concrete numbers.
- Request bodies of the in-memory demos are taken to be JSON objects. A list or scalar body appended by `create_project` or `create_book` is not representable. Floats and nested arrays or objects inside a body are not represented either. In this code they behave like the other non-string values.
- Pydantic's type coercion is not modelled (for example the string "50" for an `int` field). Wrong-typed fields and extra fields are not modelled either. Bodies arrive already typed.
- Aliasing is not modelled. Python returns the global list object itself from `get_all_projects` and `read_all_books`. `update_progress` mutates the dict objects in place. The model uses values: a later change is not seen through an earlier result.
- `Pim.DeleteFirstMatchAt`: does not say exactly which later matches the loop pops. The exact final state is `Pim.DeleteLoop`, and `Pim.ProjectRegistry.DeleteProject` is proved equal to it.
- The commented-out handlers at `books.py:20-27` are not modelled.
- `PIMApp/models.py` is used only for the row datatype `PimApp.Pim`.
- `ToDoApp/routers/users.py` is not part of this model. It depends on an authentication dependency that is not available, its `PasswordRequest` is empty, and it does not parse (`ToDoApp/routers/users.py:41` lacks a colon).

## Findings

| source | as written | input that shows it | evidently intended | confidence | as-written member | corrected member |
|---|---|---|---|---|---|---|
| pim.py:49-51 | `delete_project` loops over the original length and pops each match without leaving the loop | the initial list and "QKPH-TEST-0002": the project is removed, then `projects[4]` is read from the 4-element list and raises IndexError (a 500 answer after the delete happened) | remove the first match and return normally, as `delete_book` does with `break` (books.py:56-59) | not executed | `Pim.DeleteSecondInitialProject` | `Pim.ProjectRegistry.DeleteProjectFirstMatch` |
