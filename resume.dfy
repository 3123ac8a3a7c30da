/**
 * The parsed resume record: the JSON object the language model returns,
 * restricted to the fields the question generator reads.
 */
module ResumeData {
  import opened Wrappers
  import opened PyStr

  /** A field value inside a work-experience or project entry: a string or a list of strings. */
  datatype Field = Text(s: string) | Items(items: seq<string>)

  /** One entry of "Work Experience" or "Projects": a dictionary from field name to value. */
  type Entry = map<string, Field>

  /** The top-level fields read by the question generator; `None` when the key is absent. */
  datatype Resume = Resume(
    fullName: Option<string>,
    jobDescription: Option<string>,
    workExperience: Option<seq<Entry>>,
    skills: Option<Field>,
    projects: Option<seq<Entry>>)

  /** `entry.get(key, default)`. */
  function Get(entry: Entry, key: string, default: Field): Field {
    if key in entry then entry[key] else default
  }

  /** Python's `str(v)` of a field value, as an f-string shows it: a list as `['a', 'b']`. */
  function Show(f: Field): string {
    match f
    case Text(s) => s
    case Items(xs) => "[" + Join(", ", Quoted(xs)) + "]"
  }

  /** Each item wrapped in single quotes, as `str()` of a list shows a string item. */
  function Quoted(xs: seq<string>): seq<string>
  {
    seq(|xs|, k requires 0 <= k < |xs| => "'" + xs[k] + "'")
  }

  /** Python truthiness of a field value: a non-empty string or a non-empty list. */
  predicate Truthy(f: Field) {
    match f
    case Text(s) => s != ""
    case Items(xs) => xs != []
  }

  /** `", ".join(f)`: a list joins its items, a string joins its characters. */
  function JoinField(sep: string, f: Field): string {
    match f
    case Text(s) => Join(sep, Chars(s))
    case Items(xs) => Join(sep, xs)
  }
}
