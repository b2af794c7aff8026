/** Event tags: a tag is a name followed by positional string values, and
    lookups always take the FIRST tag that carries a given name. */
module Tags {

  datatype Option<+T> = None | Some(value: T)

  /** A tag of an event: element 0 is its name, the rest are its values. */
  type Tag = seq<string>

  /** A tag matches `name` when its element 0 is `name` (an empty tag matches nothing). */
  predicate IsNamed(t: Tag, name: string) {
    |t| > 0 && t[0] == name
  }

  /** Tag `i` is the first one named `name`. */
  predicate IsFirst(tags: seq<Tag>, name: string, i: nat) {
    i < |tags| && IsNamed(tags[i], name) && forall j :: 0 <= j < i ==> !IsNamed(tags[j], name)
  }

  /** No tag is named `name`. */
  predicate NoneNamed(tags: seq<Tag>, name: string) {
    forall j :: 0 <= j < |tags| ==> !IsNamed(tags[j], name)
  }

  /** Index of the first tag named `name` at or after index `from`. */
  function FindTagFrom(tags: seq<Tag>, name: string, from: nat): (r: Option<nat>)
    requires from <= |tags|
    ensures r.Some? ==> from <= r.value < |tags| && IsNamed(tags[r.value], name)
    decreases |tags| - from
  {
    if from == |tags| then None
    else if IsNamed(tags[from], name) then Some(from)
    else FindTagFrom(tags, name, from + 1)
  }

  /** Index of the first tag named `name`: the tag that
      `getMatchingTags(name)[0]` yields, or None when no tag has that name. */
  function FindTag(tags: seq<Tag>, name: string): (r: Option<nat>)
    ensures r.Some? ==> r.value < |tags| && IsNamed(tags[r.value], name)
  {
    FindTagFrom(tags, name, 0)
  }

  /** The search from `from` stops at the first tag named `name` at or after
      `from`, and fails exactly when there is none. */
  lemma {:induction false} FindTagFromSpec(tags: seq<Tag>, name: string, from: nat)
    requires from <= |tags|
    ensures var r := FindTagFrom(tags, name, from);
      && (r.Some? ==> forall j :: from <= j < r.value ==> !IsNamed(tags[j], name))
      && (r.None? <==> forall j :: from <= j < |tags| ==> !IsNamed(tags[j], name))
    decreases |tags| - from
  {
    if from < |tags| && !IsNamed(tags[from], name) {
      FindTagFromSpec(tags, name, from + 1);
    }
  }

  /** `getMatchingTags(name)[0]` is the first tag named `name`: the search
      finds tag `i` exactly when tag `i` is the first so named, and finds
      nothing exactly when no tag is so named. */
  lemma FindTagSpec(tags: seq<Tag>, name: string)
    ensures forall i: nat :: FindTag(tags, name) == Some(i) <==> IsFirst(tags, name, i)
    ensures FindTag(tags, name) == None <==> NoneNamed(tags, name)
  {
    FindTagFromSpec(tags, name, 0);
  }

  /** `getMatchingTags(name)[0]?.[1]`: value 1 of the first tag named `name`;
      None (JavaScript's undefined) when there is no such tag or it has no value. */
  function FirstValue(tags: seq<Tag>, name: string): Option<string> {
    match FindTag(tags, name)
    case None => None
    case Some(i) => if |tags[i]| > 1 then Some(tags[i][1]) else None
  }

  /** `getMatchingTags(name)[0]?.slice(1)` with `[]` when absent: every value of
      the first tag named `name`, in order, without the name itself. */
  function Values(tags: seq<Tag>, name: string): seq<string> {
    match FindTag(tags, name)
    case None => []
    case Some(i) => tags[i][1..]
  }

  /** JavaScript's `a || b` on strings: the empty string is falsy. */
  function Or(a: string, b: string): string {
    if a != "" then a else b
  }

  /** `getMatchingTags(name)[0]?.[1] || default`: value 1 of the first tag named
      `name` when it is present and non-empty, `default` otherwise. */
  function ValueOr(tags: seq<Tag>, name: string, default: string): (r: string)
    ensures default != "" ==> r != ""
  {
    match FirstValue(tags, name)
    case None => default
    case Some(v) => Or(v, default)
  }

  /** Reading through the first tag named `name`: its values, its value 1
      (when it has one), and value 1 with a default when that is missing or
      empty. */
  lemma LookupFirst(tags: seq<Tag>, name: string, i: nat, default: string)
    requires IsFirst(tags, name, i)
    ensures Values(tags, name) == tags[i][1..]
    ensures FirstValue(tags, name) == if |tags[i]| > 1 then Some(tags[i][1]) else None
    ensures ValueOr(tags, name, default) == if |tags[i]| > 1 && tags[i][1] != "" then tags[i][1] else default
  {
    FindTagSpec(tags, name);
  }

  /** Reading a name no tag carries: no values, no value 1, the default. */
  lemma LookupAbsent(tags: seq<Tag>, name: string, default: string)
    requires NoneNamed(tags, name)
    ensures Values(tags, name) == []
    ensures FirstValue(tags, name) == None
    ensures ValueOr(tags, name, default) == default
  {
  }

  /** Whatever the tags, value 1 of the first tag named `name` is the head
      of its values. */
  lemma HeadValue(tags: seq<Tag>, name: string, default: string)
    requires Values(tags, name) != []
    ensures FirstValue(tags, name) == Some(Values(tags, name)[0])
    ensures ValueOr(tags, name, default) == Or(Values(tags, name)[0], default)
  {
  }
}
