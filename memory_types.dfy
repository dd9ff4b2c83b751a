/** The kinds of memory, the stored entry record and the query record of the
    memory subsystem. */
module MemoryTypes {
  import opened Wrappers
  import opened Text

  /** The closed set of memory kinds. */
  datatype MemoryType = Observation | Action | Goal | Reflection | Learning | Context

  const AllTypes: seq<MemoryType> := [Observation, Action, Goal, Reflection, Learning, Context]

  /** The enum's string value. */
  function Value(t: MemoryType): (s: string)
    ensures s != [] && IsLowerCase(s)
  {
    match t
    case Observation => "observation"
    case Action => "action"
    case Goal => "goal"
    case Reflection => "reflection"
    case Learning => "learning"
    case Context => "context"
  }

  /** `MemoryType(s)`: the kind whose value is `s`; any other string raises. */
  function Parse(s: string): (r: Option<MemoryType>)
    ensures r.Some? ==> Value(r.value) == s
    ensures r.None? ==> forall t :: Value(t) != s
  {
    if s == "observation" then Some(Observation)
    else if s == "action" then Some(Action)
    else if s == "goal" then Some(Goal)
    else if s == "reflection" then Some(Reflection)
    else if s == "learning" then Some(Learning)
    else if s == "context" then Some(Context)
    else None
  }

  /** There are exactly six kinds, listed once each, with pairwise distinct
      values, and reading a kind's value back gives the kind. */
  lemma KindsAndValues(t: MemoryType, u: MemoryType)
    ensures |AllTypes| == 6 && t in AllTypes
    ensures forall i, j :: 0 <= i < j < |AllTypes| ==> AllTypes[i] != AllTypes[j]
    ensures t != u ==> Value(t) != Value(u)
    ensures Parse(Value(t)) == Some(t)
  {
  }

  /** A metadata value: the scalars a metadata dictionary holds (None, bool,
      number, string) and a list of strings. Integers and floats are both
      numbers here. */
  datatype MetaValue = Null | Flag(b: bool) | Number(x: real) | Str(s: string) | StrList(items: seq<string>)

  type Metadata = map<string, MetaValue>

  /** A memory as handed to callers. The timestamp is kept as its ISO text. */
  datatype MemoryEntry = MemoryEntry(
    id: string,
    content: string,
    memoryType: MemoryType,
    timestamp: string,
    metadata: Option<Metadata>,
    embedding: Option<seq<real>>,
    importanceScore: Option<real>)

  /** An entry built from its four required fields; the optional ones default to None. */
  function NewEntry(id: string, content: string, t: MemoryType, timestamp: string): (e: MemoryEntry)
    ensures e.id == id && e.content == content && e.memoryType == t && e.timestamp == timestamp
    ensures e.metadata == None && e.embedding == None && e.importanceScore == None
  {
    MemoryEntry(id, content, t, timestamp, None, None, None)
  }

  /** The defaults of `search_memories`, shared by the query record. */
  const DefaultSearchLimit: nat := 10
  const DefaultSimilarityThreshold: real := 0.7

  datatype MemoryQuery = MemoryQuery(
    query: string,
    memoryType: Option<MemoryType>,
    limit: int,
    similarityThreshold: real,
    timeFilter: Option<map<string, string>>)

  /** A query with only its text given: no kind filter, no time filter, and
      the limit and threshold `search_memories` uses by default. */
  function NewQuery(q: string): (r: MemoryQuery)
    ensures r.query == q && r.memoryType == None && r.timeFilter == None
    ensures r.limit == DefaultSearchLimit && r.similarityThreshold == DefaultSimilarityThreshold
  {
    MemoryQuery(q, None, 10, 0.7, None)
  }
}
