/** The `ChatQuery` record the context agent keeps in the conversation state, the
    extraction an external language-model call produces each turn, and the merge of
    the one into the other. */
module ChatQueries {
  import opened Common

  /** The attribute names the routing decision reads. */
  const RequiredNames: set<string> := {"destination", "category", "occasion"}

  /** One turn's extraction: every attribute of the extraction record, `None` when unset. */
  type Extraction = map<string, Option<string>>

  /** The attribute values of a query, keyed by attribute name; `None` when unset. */
  type Fields = map<string, Option<string>>

  /** Python truthiness of an optional string: `None` and `""` are falsy. */
  predicate Falsy(v: Option<string>): (b: bool)
    ensures !b <==> v.Some? && |v.value| > 0
  {
    v.None? || v.value == ""
  }

  /** `extraction.model_dump(exclude_none=True)`: every set attribute with its value. */
  function Dump(x: Extraction): (d: map<string, string>)
    ensures forall k :: k in d <==> k in x && x[k].Some?
    ensures forall k :: k in d ==> x[k] == Some(d[k])
  {
    map k | k in x && x[k].Some? :: x[k].value
  }

  /** The attributes after `setattr(query, key, value)` for every dumped pair whose key
      the query has (`hasattr`); the keys it does not have are skipped. */
  function Overlay(fields: Fields, update: map<string, string>): (r: Fields)
    ensures r.Keys == fields.Keys
    ensures forall k :: k in fields && k in update ==> r[k] == Some(update[k])
    ensures forall k :: k in fields && k !in update ==> r[k] == fields[k]
  {
    map k | k in fields :: if k in update then Some(update[k]) else fields[k]
  }

  /** The attributes of `ChatQuery(**update)`: every attribute of the schema gets the
      value the update gives it, the others stay at their default `None`, and keys
      outside the schema are ignored. */
  function Build(schema: set<string>, update: map<string, string>): (r: Fields)
    ensures r.Keys == schema
    ensures forall k :: k in schema ==> r[k] == if k in update then Some(update[k]) else None
  {
    map k | k in schema :: if k in update then Some(update[k]) else None
  }

  /** A query with every attribute of `schema` unset. */
  function Blank(schema: set<string>): (r: Fields)
    ensures r.Keys == schema && forall k :: k in r ==> r[k].None?
  {
    map k | k in schema :: None
  }

  /** The query the context agent keeps in the conversation state. Its attributes are
      updated in place by the merge. */
  class ChatQuery {
    /** The attribute names the query declares (`hasattr` answers true for these). */
    const schema: set<string>
    /** The current value of every attribute. */
    var fields: Fields

    ghost predicate Valid()
      reads this
    {
      fields.Keys == schema && RequiredNames <= schema
    }

    /** `ChatQuery(**update)`. */
    constructor (schema: set<string>, update: map<string, string>)
      requires RequiredNames <= schema
      ensures Valid()
      ensures this.schema == schema && fields == Build(schema, update)
    {
      this.schema := schema;
      fields := Build(schema, update);
    }

    /** The merge loop: for every key and value of `update`, `setattr` when `hasattr`. */
    method Merge(update: map<string, string>)
      requires Valid()
      modifies this
      ensures Valid()
      ensures fields == Overlay(old(fields), update)
    {
      var pending := update.Keys;
      while pending != {}
        invariant pending <= update.Keys
        invariant Valid()
        invariant fields == Overlay(old(fields), update - pending)
        decreases pending
      {
        var key :| key in pending;
        if key in fields {
          fields := fields[key := Some(update[key])];
        }
        pending := pending - {key};
      }
    }
  }

  /** Merging a turn's extraction into a query: every attribute the extraction sets
      (an empty string included) takes the extracted value, every attribute it leaves
      `None` keeps its old value, and no attribute is added or removed. */
  lemma MergeExtraction(fields: Fields, x: Extraction)
    ensures Overlay(fields, Dump(x)).Keys == fields.Keys
    ensures forall k :: k in fields && k in x && x[k].Some? ==> Overlay(fields, Dump(x))[k] == x[k]
    ensures forall k :: k in fields && (k !in x || x[k].None?) ==> Overlay(fields, Dump(x))[k] == fields[k]
  {
  }

  /** Extracted keys the query does not declare change nothing: the merge is the same
      as merging only the keys the query has. */
  lemma UnknownKeysIgnored(fields: Fields, update: map<string, string>)
    ensures Overlay(fields, update) == Overlay(fields, map k | k in update && k in fields :: update[k])
  {
  }

  /** Merging an update whose values the query already holds leaves the query as it was. */
  lemma MergeAlreadyHeld(fields: Fields, update: map<string, string>)
    requires forall k :: k in update && k in fields ==> fields[k] == Some(update[k])
    ensures Overlay(fields, update) == fields
  {
  }

  /** Merging is idempotent: applying the same update twice is applying it once. */
  lemma MergeIdempotent(fields: Fields, update: map<string, string>)
    ensures Overlay(Overlay(fields, update), update) == Overlay(fields, update)
  {
    MergeAlreadyHeld(Overlay(fields, update), update);
  }

  /** Building a new query from an update is merging that update into a blank query. */
  lemma BuildIsMergeIntoBlank(schema: set<string>, update: map<string, string>)
    ensures Build(schema, update) == Overlay(Blank(schema), update)
  {
  }
}
