/** JSON bodies built from dotted keys, and the lookup that reads them back
    (server/internal/execution/facade.go, poll.go). */
module DottedBody {
  import opened Common

  datatype Json = Text(value: string) | Object(fields: map<string, Json>)

  type Fields = map<string, Json>

  /** A key's segments: split at every dot, so a key has at least one segment and empty ones are possible. */
  function Split(key: string): (path: seq<string>)
    ensures |path| > 0
  {
    if key == "" then [""]
    else
      var front, c := Split(key[..|key| - 1]), key[|key| - 1];
      if c == '.' then front + [""] else front[|front| - 1 := front[|front| - 1] + [c]]
  }

  predicate DotFree(s: string) { '.' !in s }

  /** Every dot separates: no segment holds one. */
  lemma {:induction false} SegmentsAreDotFree(key: string, i: nat)
    requires i < |Split(key)|
    ensures DotFree(Split(key)[i])
  {
    if key != "" {
      var front := Split(key[..|key| - 1]);
      SegmentsAreDotFree(key[..|key| - 1], if i < |front| then i else 0);
    }
  }

  /** A path with more text on its last segment. */
  function Grown(path: seq<string>, t: string): seq<string>
    requires |path| > 0
  {
    path[|path| - 1 := path[|path| - 1] + t]
  }

  lemma GrownTwice(path: seq<string>, t: string, u: string)
    requires |path| > 0
    ensures Grown(path, "") == path && Grown(Grown(path, t), u) == Grown(path, t + u)
  {
    var last := path[|path| - 1];
    assert last + "" == last && last + t + u == last + (t + u);
  }

  lemma SplitGrowsByOne(s: string, c: char)
    requires c != '.'
    ensures Split(s + [c]) == Grown(Split(s), [c])
  {
    assert (s + [c])[..|s|] == s;
  }

  /** Nothing else separates: a text without dots goes to the last segment. */
  lemma {:induction false} SplitGrowsLast(s: string, t: string)
    requires DotFree(t)
    ensures Split(s + t) == Grown(Split(s), t)
  {
    hide Split, Grown;
    if t == "" {
      assert s + t == s;
      GrownTwice(Split(s), "", "");
    } else {
      var front, c := t[..|t| - 1], t[|t| - 1];
      SplitGrowsLast(s, front);
      assert c in t && t == front + [c];
      SplitGrowsByOne(s + front, c);
      GrownTwice(Split(s), front, [c]);
      assert s + t == s + front + [c];
    }
  }

  lemma SplitAtLastDot(s: string, t: string)
    requires DotFree(t)
    ensures Split(s + "." + t) == Split(s) + [t]
  {
    assert (s + ".")[..|s|] == s;
    SplitGrowsLast(s + ".", t);
    assert Split(s + ".") == Split(s) + [""];
    assert "" + t == t;
  }

  lemma SplitOne(x: string)
    requires DotFree(x)
    ensures Split(x) == [x]
  {
    SplitGrowsLast("", x);
    assert "" + x == x;
  }

  lemma SplitPair(x: string, y: string)
    requires DotFree(x) && DotFree(y)
    ensures Split(x + "." + y) == [x, y]
  {
    SplitAtLastDot(x, y);
    SplitOne(x);
  }

  function ChildOf(target: Fields, key: string): Fields {
    if key in target && target[key].Object? then target[key].fields else map[]
  }

  /** Sets one value, making the objects on the way; whatever is not an object on the way is replaced by one. */
  function SetPath(target: Fields, path: seq<string>, value: string): Fields
    requires |path| > 0
    decreases |path|
  {
    if |path| == 1 then target[path[0] := Text(value)]
    else target[path[0] := Object(SetPath(ChildOf(target, path[0]), path[1..], value))]
  }

  function LookupPath(data: Json, path: seq<string>): Option<Json> {
    if path == [] then Some(data)
    else if data.Text? || path[0] !in data.fields then None
    else LookupPath(data.fields[path[0]], path[1..])
  }

  function Lookup(data: Json, key: string): Option<Json> {
    if key == "" then Some(data) else LookupPath(data, Split(key))
  }

  predicate Prefix(p: seq<string>, q: seq<string>) { |p| <= |q| && q[..|p|] == p }

  /** Neither is a prefix of the other. */
  predicate Apart(p: seq<string>, q: seq<string>) { !Prefix(p, q) && !Prefix(q, p) }

  // ---- The object on the heap ----

  datatype Slot = Leaf(value: string) | Child(obj: JsonObject)

  /** A nested object whose members are updated in place. Model is the value it stands for. */
  class JsonObject {
    var members: map<string, Slot>
    ghost var Model: Fields
    ghost var Repr: set<JsonObject>

    ghost predicate Valid()
      reads this, Repr
      decreases Repr
    {
      && this in Repr
      && members.Keys == Model.Keys
      && (forall k :: k in members && members[k].Leaf? ==> Model[k] == Text(members[k].value))
      && (forall k :: k in members && members[k].Child? ==>
            var c := members[k].obj;
            c in Repr && c.Repr <= Repr && this !in c.Repr && c.Valid() && Model[k] == Object(c.Model))
      && (forall j, k :: j in members && k in members && j != k && members[j].Child? && members[k].Child? ==>
            members[j].obj.Repr !! members[k].obj.Repr)
    }

    constructor ()
      ensures Valid() && fresh(Repr) && Model == map[]
    {
      members, Model := map[], map[];
      Repr := {this};
    }

    method PutLeaf(key: string, value: string)
      requires Valid()
      modifies this`members, this`Model
      ensures Valid() && Model == old(Model)[key := Text(value)]
    {
      members := members[key := Leaf(value)];
      Model := Model[key := Text(value)];
    }

    method NewChild(key: string) returns (child: JsonObject)
      requires Valid() && !(key in members && members[key].Child?)
      modifies this
      ensures Valid() && fresh(Repr - old(Repr))
      ensures key in members && members[key] == Child(child)
      ensures child.Model == map[] && Model == old(Model)[key := Object(map[])]
    {
      child := new JsonObject();
      members := members[key := Child(child)];
      Model := Model[key := Object(map[])];
      Repr := Repr + child.Repr;
    }

    /** The object under a key, which takes the place of anything else there. */
    method ChildAt(key: string) returns (child: JsonObject)
      requires Valid()
      modifies this
      ensures Valid() && fresh(Repr - old(Repr))
      ensures key in members && members[key] == Child(child)
      ensures child.Model == ChildOf(old(Model), key)
      ensures Model == old(Model)[key := Object(child.Model)]
    {
      if key in members && members[key].Child? {
        child := members[key].obj;
        assert Model == Model[key := Object(child.Model)];
      } else {
        child := NewChild(key);
      }
    }

    /** Valid, except that the object under one key has changed since it was adopted. */
    ghost predicate ValidBut(key: string)
      reads this, Repr, if key in members && members[key].Child? then {members[key].obj} + members[key].obj.Repr else {}
    {
      && this in Repr && members.Keys == Model.Keys
      && key in members && members[key].Child? && members[key].obj.Valid() && this !in members[key].obj.Repr
      && (forall k :: k in members && members[k].Leaf? ==> Model[k] == Text(members[k].value))
      && (forall k :: k in members && k != key && members[k].Child? ==>
            var c := members[k].obj;
            c in Repr && c.Repr <= Repr && this !in c.Repr && c.Valid() && Model[k] == Object(c.Model))
      && (forall j, k :: j in members && k in members && j != k && members[j].Child? && members[k].Child? ==>
            members[j].obj in Repr + {members[key].obj} && members[k].obj in Repr + {members[key].obj}
            && members[j].obj.Repr !! members[k].obj.Repr)
    }

    ghost method Adopt(key: string)
      requires ValidBut(key)
      modifies this`Model, this`Repr
      ensures Valid() && Repr == old(Repr) + members[key].obj.Repr
      ensures Model == old(Model)[key := Object(members[key].obj.Model)]
    {
      ghost var child := members[key].obj;
      Model := Model[key := Object(child.Model)];
      Repr := Repr + child.Repr;
      assert child.Valid();
    }

    method SetNested(path: seq<string>, value: string)
      requires Valid() && |path| > 0
      modifies Repr
      ensures Valid() && fresh(Repr - old(Repr))
      ensures Model == SetPath(old(Model), path, value)
      decreases |path|, 1
    {
      if |path| == 1 {
        PutLeaf(path[0], value);
      } else {
        var child := ChildAt(path[0]);
        SetBelow(path[0], child, path[1..], value);
      }
    }

    method SetBelow(key: string, child: JsonObject, path: seq<string>, value: string)
      requires Valid() && |path| > 0 && key in members && members[key] == Child(child)
      modifies Repr
      ensures Valid() && fresh(Repr - old(Repr))
      ensures Model == old(Model)[key := Object(SetPath(old(child.Model), path, value))]
      decreases |path|, 2
    {
      child.SetNested(path, value);
      Adopt(key);
    }
  }

  // ---- Building ----

  datatype Entry = Entry(path: seq<string>, value: string)

  predicate ValidEntries(entries: seq<Entry>) {
    forall i :: 0 <= i < |entries| ==> |entries[i].path| > 0
  }

  function Build(entries: seq<Entry>): Fields
    requires ValidEntries(entries)
  {
    if entries == [] then map[]
    else
      var last := entries[|entries| - 1];
      SetPath(Build(entries[..|entries| - 1]), last.path, last.value)
  }

  predicate PrefixFree(entries: seq<Entry>) {
    forall i, j :: 0 <= i < j < |entries| ==> Apart(entries[i].path, entries[j].path)
  }

  /** What a template rendered to: a value, nothing because an optional token is missing, or an error. */
  datatype Rendered = Value(value: string) | Dropped | Fails

  function EntryFor(mapping: map<string, Rendered>, key: string): seq<Entry>
    requires key in mapping
  {
    if mapping[key].Value? then [Entry(Split(key), mapping[key].value)] else []
  }

  /** The keys are keys of the mapping. */
  predicate Known(mapping: map<string, Rendered>, order: seq<string>) {
    forall i :: 0 <= i < |order| ==> order[i] in mapping
  }

  /** The entries of the first n keys of an iteration order, without the dropped ones. */
  function EntriesOf(mapping: map<string, Rendered>, order: seq<string>, n: nat): seq<Entry>
    requires n <= |order| && Known(mapping, order)
  {
    if n == 0 then [] else EntriesOf(mapping, order, n - 1) + EntryFor(mapping, order[n - 1])
  }

  lemma {:induction false} EntriesAreValid(mapping: map<string, Rendered>, order: seq<string>, n: nat)
    requires n <= |order| && Known(mapping, order)
    ensures ValidEntries(EntriesOf(mapping, order, n))
  {
    if n > 0 {
      EntriesAreValid(mapping, order, n - 1);
    }
  }

  lemma BuildOneMore(entries: seq<Entry>, e: Entry)
    requires ValidEntries(entries) && |e.path| > 0
    ensures ValidEntries(entries + [e]) && Build(entries + [e]) == SetPath(Build(entries), e.path, e.value)
  {
    assert (entries + [e])[..|entries|] == entries;
  }

  /** The value is under y in an object under x. */
  predicate Nests(fields: Fields, x: string, y: string, value: string) {
    x in fields && fields[x].Object? && y in fields[x].fields && fields[x].fields[y] == Text(value)
  }

  lemma SetPairNests(target: Fields, x: string, y: string, value: string)
    requires DotFree(x) && DotFree(y)
    ensures Nests(SetPath(target, Split(x + "." + y), value), x, y, value)
  {
    SplitPair(x, y);
  }

  lemma SetOne(target: Fields, x: string, value: string)
    requires DotFree(x)
    ensures SetPath(target, Split(x), value) == target[x := Text(value)]
  {
    SplitOne(x);
  }

  /** Where a key's value is in a body, told by map access, for keys of one and of two segments. */
  ghost predicate KeyPlaced(fields: Fields, key: string, value: string) {
    && (forall x, y {:trigger DotFree(x), DotFree(y)} :: DotFree(x) && DotFree(y) && key == x + "." + y ==>
          Nests(fields, x, y, value))
    && (DotFree(key) ==> key in fields && fields[key] == Text(value))
  }

  lemma SetIsPlaced(target: Fields, key: string, value: string)
    ensures KeyPlaced(SetPath(target, Split(key), value), key, value)
  {
    forall x, y | DotFree(x) && DotFree(y) && key == x + "." + y
      ensures Nests(SetPath(target, Split(key), value), x, y, value)
    {
      SetPairNests(target, x, y, value);
    }
    if DotFree(key) {
      SetOne(target, key, value);
    }
  }

  lemma LastKeyIsPlaced(mapping: map<string, Rendered>, order: seq<string>)
    requires Known(mapping, order)
    ensures ValidEntries(EntriesOf(mapping, order, |order|))
    ensures |order| > 0 && mapping[order[|order| - 1]].Value? ==>
      KeyPlaced(Build(EntriesOf(mapping, order, |order|)), order[|order| - 1], mapping[order[|order| - 1]].value)
  {
    hide KeyPlaced, Build, SetPath, Split;
    EntriesAreValid(mapping, order, |order|);
    if |order| > 0 && mapping[order[|order| - 1]].Value? {
      var key, n := order[|order| - 1], |order| - 1;
      EntriesAreValid(mapping, order, n);
      BuildOneMore(EntriesOf(mapping, order, n), Entry(Split(key), mapping[key].value));
      SetIsPlaced(Build(EntriesOf(mapping, order, n)), key, mapping[key].value);
    }
  }

  method SetRendered(body: JsonObject, path: seq<string>, value: string, ghost entries: seq<Entry>)
    returns (ghost extended: seq<Entry>)
    requires body.Valid() && ValidEntries(entries) && body.Model == Build(entries) && |path| > 0
    modifies body.Repr
    ensures body.Valid() && fresh(body.Repr - old(body.Repr))
    ensures extended == entries + [Entry(path, value)] && ValidEntries(extended) && body.Model == Build(extended)
  {
    BuildOneMore(entries, Entry(path, value));
    extended := entries + [Entry(path, value)];
    body.SetNested(path, value);
  }

  /** Builds a body from a mapping, its keys in whatever order they come; there is none if a template fails. */
  method BuildBody(mapping: map<string, Rendered>, order: seq<string>) returns (body: JsonObject?)
    requires Known(mapping, order)
    ensures body == null <==> exists i :: 0 <= i < |order| && mapping[order[i]].Fails?
    ensures body != null ==>
      && fresh(body.Repr) && body.Valid()
      && ValidEntries(EntriesOf(mapping, order, |order|)) && body.Model == Build(EntriesOf(mapping, order, |order|))
    ensures body != null && |order| > 0 && mapping[order[|order| - 1]].Value? ==>
      KeyPlaced(body.Model, order[|order| - 1], mapping[order[|order| - 1]].value)
  {
    hide KeyPlaced, Split;
    var built := new JsonObject();
    ghost var entries := [];
    for i := 0 to |order|
      invariant fresh(built.Repr) && built.Valid()
      invariant forall j :: 0 <= j < i ==> !mapping[order[j]].Fails?
      invariant entries == EntriesOf(mapping, order, i) && ValidEntries(entries) && built.Model == Build(entries)
    {
      var rendered := mapping[order[i]];
      if rendered.Fails? {
        return null;
      }
      if rendered.Value? {
        entries := SetRendered(built, Split(order[i]), rendered.value, entries);
      }
    }
    body := built;
    LastKeyIsPlaced(mapping, order);
  }

  /** The member of an object; anything else has none. */
  function Member(data: Json, key: string): Option<Json> {
    if data.Object? && key in data.fields then Some(data.fields[key]) else None
  }

  lemma LookupShort(data: Json, x: string, y: string)
    ensures LookupPath(data, [x]) == Member(data, x)
    ensures LookupPath(data, [x, y]) == if Member(data, x).Some? then Member(Member(data, x).value, y) else None
  {
    assert [x, y][1..] == [y] && [x][1..] == [];
    if Member(data, x).Some? {
      assert [y][1..] == [];
      assert LookupPath(Member(data, x).value, [y]) == Member(Member(data, x).value, y);
    }
  }

  lemma LookupDescends(data: Json, key: string)
    ensures key != "" && DotFree(key) ==> Lookup(data, key) == Member(data, key)
    ensures forall x, y {:trigger DotFree(x), DotFree(y)} :: DotFree(x) && DotFree(y) && key == x + "." + y ==>
              Lookup(data, key) == if Member(data, x).Some? then Member(Member(data, x).value, y) else None
  {
    hide LookupPath, Split, Member;
    if key != "" && DotFree(key) {
      SplitOne(key);
      LookupShort(data, key, "");
    }
    forall x, y | DotFree(x) && DotFree(y) && key == x + "." + y
      ensures Lookup(data, key) == if Member(data, x).Some? then Member(Member(data, x).value, y) else None
    {
      SplitPair(x, y);
      LookupShort(data, x, y);
    }
  }

  /** Walks a dotted path through decoded JSON. */
  method LookupPollField(data: Json, key: string) returns (found: Option<Json>)
    ensures found == Lookup(data, key)
    ensures key == "" ==> found == Some(data)
    ensures key != "" && DotFree(key) ==> found == Member(data, key)
    ensures forall x, y {:trigger DotFree(x), DotFree(y)} :: DotFree(x) && DotFree(y) && key == x + "." + y ==>
              found == if Member(data, x).Some? then Member(Member(data, x).value, y) else None
  {
    LookupDescends(data, key);
    if key == "" {
      return Some(data);
    }
    var current, path := data, Split(key);
    for i := 0 to |path|
      invariant LookupPath(data, path) == LookupPath(current, path[i..])
    {
      if current.Text? || path[i] !in current.fields {
        return None;
      }
      assert path[i..][1..] == path[i + 1..];
      current := current.fields[path[i]];
    }
    return Some(current);
  }

  // ---- One write ----

  /** What was set is found. */
  lemma {:induction false} SetIsFound(target: Fields, path: seq<string>, value: string)
    requires |path| > 0
    ensures LookupPath(Object(SetPath(target, path, value)), path) == Some(Text(value))
    decreases |path|
  {
    if |path| > 1 {
      SetIsFound(ChildOf(target, path[0]), path[1..], value);
    } else {
      assert path[1..] == [];
    }
  }

  /** Setting one path leaves every lookup apart from it as it was. */
  lemma {:induction false} SetDisturbsNoOther(target: Fields, path: seq<string>, value: string, other: seq<string>)
    requires |path| > 0 && Apart(path, other)
    ensures LookupPath(Object(SetPath(target, path, value)), other) == LookupPath(Object(target), other)
    decreases |path|
  {
    ApartCases(path, other);
    if path[0] == other[0] {
      SetDisturbsNoOther(ChildOf(target, path[0]), path[1..], value, other[1..]);
    }
  }

  lemma TailsPrefix(p: seq<string>, q: seq<string>)
    requires |p| > 0 && |q| > 0 && p[0] == q[0]
    ensures Prefix(p[1..], q[1..]) <==> Prefix(p, q)
  {
    assert p == [p[0]] + p[1..];
    if |p| <= |q| {
      assert q[..|p|] == [q[0]] + q[1..][..|p| - 1];
      assert q[..|p|][1..] == q[1..][..|p| - 1];
    }
  }

  lemma ApartCases(p: seq<string>, q: seq<string>)
    requires Apart(p, q)
    ensures |p| > 0 && |q| > 0
    ensures p[0] == q[0] ==> |p| > 1 && |q| > 1 && Apart(p[1..], q[1..])
  {
    ShortPrefix(p, q);
    ShortPrefix(q, p);
    if p[0] == q[0] {
      TailsPrefix(p, q);
      TailsPrefix(q, p);
    }
  }

  lemma ShortPrefix(p: seq<string>, q: seq<string>)
    ensures p == [] ==> Prefix(p, q)
    ensures |p| == 1 && |q| > 0 && p[0] == q[0] ==> Prefix(p, q)
    ensures Prefix(p, q) && |p| == |q| ==> p == q
  {
    if |p| <= |q| {
      assert p == [] ==> q[..|p|] == p;
      assert |p| == 1 && p[0] == q[0] ==> q[..|p|] == p;
      assert |p| == |q| ==> q[..|p|] == q;
    }
  }

  // ---- Two writes ----

  function Twice(target: Fields, p: seq<string>, v: string, q: seq<string>, w: string): Fields
    requires |p| > 0 && |q| > 0
  {
    SetPath(SetPath(target, p, v), q, w)
  }

  /** Two writes below one key are two writes in the object there. */
  lemma TwiceBelow(target: Fields, p: seq<string>, v: string, q: seq<string>, w: string)
    requires |p| > 1 && |q| > 1 && p[0] == q[0]
    ensures Twice(target, p, v, q, w) == target[p[0] := Object(Twice(ChildOf(target, p[0]), p[1..], v, q[1..], w))]
  {
    var once := SetPath(ChildOf(target, p[0]), p[1..], v);
    assert SetPath(target, p, v) == target[p[0] := Object(once)];
    assert target[p[0] := Object(once)][p[0] := Object(SetPath(once, q[1..], w))]
      == target[p[0] := Object(SetPath(once, q[1..], w))];
  }

  /** A write replaces only what is under its first segment. */
  lemma SetUnderFirst(target: Fields, other: Fields, p: seq<string>, v: string)
    requires |p| > 0 && ChildOf(target, p[0]) == ChildOf(other, p[0])
    ensures p[0] in SetPath(target, p, v) && p[0] in SetPath(other, p, v)
    ensures SetPath(target, p, v) == target[p[0] := SetPath(other, p, v)[p[0]]]
  {
  }

  lemma {:induction false} ApartCommute(target: Fields, p: seq<string>, v: string, q: seq<string>, w: string)
    requires |p| > 0 && |q| > 0 && Apart(p, q)
    ensures Twice(target, p, v, q, w) == Twice(target, q, w, p, v)
    decreases |p|
  {
    ApartCases(p, q);
    if p[0] == q[0] {
      ApartCommute(ChildOf(target, p[0]), p[1..], v, q[1..], w);
      TwiceBelow(target, p, v, q, w);
      TwiceBelow(target, q, w, p, v);
    } else {
      SetUnderFirst(SetPath(target, p, v), target, q, w);
      SetUnderFirst(SetPath(target, q, w), target, p, v);
      SetUnderFirst(target, target, p, v);
      SetUnderFirst(target, target, q, w);
      hide SetPath;
    }
  }

  /** Setting below a path leaves an object there. */
  lemma {:induction false} SetBelowLeavesObject(target: Fields, p: seq<string>, q: seq<string>, w: string)
    requires |p| > 0 && Prefix(p, q) && p != q
    ensures LookupPath(Object(SetPath(target, q, w)), p).Some?
              && LookupPath(Object(SetPath(target, q, w)), p).value.Object?
    decreases |p|
  {
    ShortPrefix(p, q);
    assert p[0] == q[..|p|][0];
    if |p| == 1 {
      assert p[1..] == [];
    } else {
      assert q[1..][..|p| - 1] == q[..|p|][1..];
      SetBelowLeavesObject(ChildOf(target, q[0]), p[1..], q[1..], w);
    }
  }

  /** Two writes commute exactly when neither path is a prefix of the other, or they are the same write. */
  lemma CommuteIff(target: Fields, p: seq<string>, v: string, q: seq<string>, w: string)
    requires |p| > 0 && |q| > 0
    ensures Twice(target, p, v, q, w) == Twice(target, q, w, p, v) <==> Apart(p, q) || (p == q && v == w)
  {
    if Apart(p, q) {
      ApartCommute(target, p, v, q, w);
    } else {
      SetIsFound(SetPath(target, p, v), q, w);
      SetIsFound(SetPath(target, q, w), p, v);
      if p != q {
        if Prefix(p, q) {
          SetBelowLeavesObject(SetPath(target, p, v), p, q, w);
        } else {
          SetBelowLeavesObject(SetPath(target, q, w), q, p, v);
        }
      }
    }
  }

  // ---- Whole bodies ----

  /** Looking up each key of a prefix-free body gives its value. */
  lemma {:induction false} EachKeyIsFound(entries: seq<Entry>, i: nat)
    requires ValidEntries(entries) && PrefixFree(entries) && i < |entries|
    ensures LookupPath(Object(Build(entries)), entries[i].path) == Some(Text(entries[i].value))
  {
    var front, last := entries[..|entries| - 1], entries[|entries| - 1];
    if i < |front| {
      EachKeyIsFound(front, i);
      assert Apart(entries[i].path, last.path);
      SetDisturbsNoOther(Build(front), last.path, last.value, entries[i].path);
    } else {
      SetIsFound(Build(front), last.path, last.value);
    }
  }

  /** Nothing else is found: a path apart from every key is not there. */
  lemma {:induction false} NothingElseIsFound(entries: seq<Entry>, path: seq<string>)
    requires ValidEntries(entries) && path != [] && forall i :: 0 <= i < |entries| ==> Apart(entries[i].path, path)
    ensures LookupPath(Object(Build(entries)), path) == None
  {
    if entries != [] {
      var front, last := entries[..|entries| - 1], entries[|entries| - 1];
      NothingElseIsFound(front, path);
      SetDisturbsNoOther(Build(front), last.path, last.value, path);
    }
  }

  function Without<T>(s: seq<T>, k: nat): seq<T>
    requires k < |s|
  {
    s[..k] + s[k + 1..]
  }

  /** An entry apart from all others can be written last. */
  lemma {:induction false} MoveToEnd(entries: seq<Entry>, k: nat)
    requires ValidEntries(entries) && k < |entries|
    requires forall i :: 0 <= i < |entries| && i != k ==> Apart(entries[k].path, entries[i].path)
    ensures ValidEntries(Without(entries, k))
    ensures Build(entries) == SetPath(Build(Without(entries, k)), entries[k].path, entries[k].value)
  {
    var front, last := entries[..|entries| - 1], entries[|entries| - 1];
    if k == |entries| - 1 {
      assert Without(entries, k) == front;
    } else {
      MoveToEnd(front, k);
      var rest := Without(front, k);
      assert Without(entries, k) == rest + [last];
      BuildOneMore(rest, last);
      ApartCommute(Build(rest), entries[k].path, entries[k].value, last.path, last.value);
    }
  }

  lemma WithoutIsOneLess<T>(s: seq<T>, k: nat)
    requires k < |s|
    ensures multiset(s) == multiset(Without(s, k)) + multiset{s[k]}
  {
    assert s == s[..k] + [s[k]] + s[k + 1..];
  }

  /** The keys of one list, in another order, are still prefix-free. */
  lemma ReorderedPrefixFree(a: seq<Entry>, b: seq<Entry>)
    requires PrefixFree(a) && multiset(a) == multiset(b)
    ensures PrefixFree(b)
  {
    forall i, j | 0 <= i < j < |b| ensures Apart(b[i].path, b[j].path) {
      var k, n := PairElsewhere(a, b, i, j);
      ApartAt(a, k, n);
    }
  }

  lemma RemoveBoth<T>(a: seq<T>, k: nat, b: seq<T>, i: nat)
    requires multiset(a) == multiset(b) && k < |a| && i < |b| && a[k] == b[i]
    ensures multiset(Without(a, k)) == multiset(Without(b, i))
  {
    WithoutIsOneLess(a, k);
    WithoutIsOneLess(b, i);
    assert multiset(Without(a, k)) == multiset(a) - multiset{a[k]};
    assert multiset(Without(b, i)) == multiset(b) - multiset{b[i]};
  }

  lemma PairElsewhere(a: seq<Entry>, b: seq<Entry>, i: nat, j: nat) returns (k: nat, n: nat)
    requires multiset(a) == multiset(b) && i < j < |b|
    ensures k < |a| && n < |a| && k != n && a[k] == b[i] && a[n] == b[j]
  {
    assert b[i] in multiset(b);
    k := IndexOf(a, b[i]);
    RemoveBoth(a, k, b, i);
    LaterStays(b, i, j);
    var m := IndexOf(Without(a, k), b[j]);
    n := if m < k then m else m + 1;
  }

  lemma ApartAt(a: seq<Entry>, k: nat, n: nat)
    requires PrefixFree(a) && k < |a| && n < |a| && k != n
    ensures Apart(a[k].path, a[n].path)
  {
    hide Apart;
    ApartBothWays(a[k].path, a[n].path);
    assert Apart(a[if n < k then n else k].path, a[if n < k then k else n].path);
  }

  lemma LaterStays(b: seq<Entry>, i: nat, j: nat)
    requires i < j < |b|
    ensures b[j] in multiset(Without(b, i))
  {
    assert Without(b, i)[j - 1] == b[j];
  }

  lemma ApartBothWays(p: seq<string>, q: seq<string>)
    ensures Apart(p, q) <==> Apart(q, p)
  {
  }

  lemma IndexOf<T>(s: seq<T>, x: T) returns (k: nat)
    requires x in multiset(s)
    ensures k < |s| && s[k] == x
  {
    k :| k < |s| && s[k] == x;
  }

  /** With keys none of which is a prefix of another, every iteration order builds the same body. */
  lemma {:induction false} AllOrdersAgree(a: seq<Entry>, b: seq<Entry>)
    requires ValidEntries(a) && ValidEntries(b) && PrefixFree(a) && multiset(a) == multiset(b)
    ensures Build(a) == Build(b)
    decreases |a|
  {
    if a == [] {
      EmptyReordered(a, b);
    } else {
      var k := ReorderedStep(a, b);
      AllOrdersAgree(a[..|a| - 1], Without(b, k));
      hide Build, PrefixFree;
      BuildLast(a);
    }
  }

  lemma EmptyReordered<T>(a: seq<T>, b: seq<T>)
    requires a == [] && multiset(a) == multiset(b)
    ensures b == []
  {
    assert |b| == |multiset(b)|;
  }

  lemma BuildLast(a: seq<Entry>)
    requires ValidEntries(a) && a != []
    ensures Build(a) == SetPath(Build(a[..|a| - 1]), a[|a| - 1].path, a[|a| - 1].value)
  {
  }

  /** The last entry of one order, taken from wherever it is in the other. */
  lemma ReorderedStep(a: seq<Entry>, b: seq<Entry>) returns (k: nat)
    requires ValidEntries(a) && ValidEntries(b) && PrefixFree(a) && multiset(a) == multiset(b) && a != []
    ensures k < |b| && ValidEntries(Without(b, k)) && PrefixFree(a[..|a| - 1])
    ensures multiset(a[..|a| - 1]) == multiset(Without(b, k))
    ensures Build(b) == SetPath(Build(Without(b, k)), a[|a| - 1].path, a[|a| - 1].value)
  {
    hide Build, SetPath, Apart;
    k := LastElsewhere(a, b);
    ReorderedPrefixFree(a, b);
    ApartFromRest(b, k);
    MoveToEnd(b, k);
  }

  lemma ApartFromRest(b: seq<Entry>, k: nat)
    requires PrefixFree(b) && k < |b|
    ensures forall i :: 0 <= i < |b| && i != k ==> Apart(b[k].path, b[i].path)
  {
    hide Apart;
    forall i | 0 <= i < |b| && i != k ensures Apart(b[k].path, b[i].path) {
      ApartAt(b, k, i);
    }
  }

  /** Conversely, two keys that are not apart can be written last in either order, and the bodies differ. */
  lemma OrderMatters(rest: seq<Entry>, x: Entry, y: Entry)
    requires ValidEntries(rest) && |x.path| > 0 && |y.path| > 0 && x.path != y.path && !Apart(x.path, y.path)
    ensures ValidEntries(rest + [x] + [y]) && ValidEntries(rest + [y] + [x])
    ensures Build(rest + [x] + [y]) != Build(rest + [y] + [x])
  {
    hide Build, SetPath, Apart, LookupPath;
    BuildOneMore(rest, x);
    BuildOneMore(rest, y);
    BuildOneMore(rest + [x], y);
    BuildOneMore(rest + [y], x);
    CommuteIff(Build(rest), x.path, x.value, y.path, y.value);
  }

  ghost predicate OrderIndependent(a: seq<Entry>)
    requires ValidEntries(a)
  {
    forall b :: multiset(b) == multiset(a) && ValidEntries(b) ==> Build(b) == Build(a)
  }

  predicate DistinctPaths(a: seq<Entry>) {
    forall i, j :: 0 <= i < j < |a| ==> a[i].path != a[j].path
  }

  /** The body a set of distinct keys builds is the same for every iteration order exactly when no key is a prefix of
      another, segment by segment. */
  lemma OrderIndependentIff(a: seq<Entry>)
    requires ValidEntries(a) && DistinctPaths(a)
    ensures OrderIndependent(a) <==> PrefixFree(a)
  {
    if PrefixFree(a) {
      forall b | multiset(b) == multiset(a) && ValidEntries(b) ensures Build(b) == Build(a) {
        AllOrdersAgree(a, b);
      }
    } else {
      var i, j :| 0 <= i < j < |a| && !Apart(a[i].path, a[j].path);
      var b := TwoOrdersDiffer(a, i, j);
    }
  }

  lemma TwoOrdersDiffer(a: seq<Entry>, i: nat, j: nat) returns (b: seq<Entry>)
    requires ValidEntries(a) && DistinctPaths(a) && i < j < |a| && !Apart(a[i].path, a[j].path)
    ensures multiset(b) == multiset(a) && ValidEntries(b) && Build(b) != Build(a)
  {
    hide Build, SetPath, Apart, LookupPath;
    var rest := LastTwo(a, i, j);
    OrderMatters(rest, a[i], a[j]);
    hide ValidEntries;
    b := if Build(rest + [a[i]] + [a[j]]) != Build(a) then rest + [a[i]] + [a[j]] else rest + [a[j]] + [a[i]];
  }

  lemma LastTwo(a: seq<Entry>, i: nat, j: nat) returns (rest: seq<Entry>)
    requires i < j < |a| && ValidEntries(a)
    ensures ValidEntries(rest)
    ensures multiset(rest + [a[i]] + [a[j]]) == multiset(a) && multiset(rest + [a[j]] + [a[i]]) == multiset(a)
  {
    var fewer := Without(a, j);
    assert fewer[i] == a[i];
    rest := Without(fewer, i);
    WithoutIsOneLess(a, j);
    WithoutIsOneLess(fewer, i);
  }

  // ---- Keys and segments ----

  function Join(path: seq<string>): string
    requires |path| > 0
  {
    if |path| == 1 then path[0] else Join(path[..|path| - 1]) + "." + path[|path| - 1]
  }

  /** Splitting loses nothing, so distinct keys have distinct paths. */
  lemma {:induction false} JoinUndoesSplit(key: string)
    ensures Join(Split(key)) == key
  {
    if key != "" {
      var front, c := Split(key[..|key| - 1]), key[|key| - 1];
      JoinUndoesSplit(key[..|key| - 1]);
      assert key == key[..|key| - 1] + [c];
      if c == '.' {
        assert (front + [""])[..|front|] == front;
      } else {
        var grown := front[|front| - 1 := front[|front| - 1] + [c]];
        assert grown[..|front| - 1] == front[..|front| - 1];
        if |front| > 1 {
          assert Join(grown) == Join(front[..|front| - 1]) + "." + (front[|front| - 1] + [c]);
        }
      }
    }
  }

  /** And joining loses nothing either: splitting gives back every non-empty path of dot-free segments. */
  lemma {:induction false} SplitUndoesJoin(path: seq<string>)
    requires |path| > 0 && forall i :: 0 <= i < |path| ==> DotFree(path[i])
    ensures Split(Join(path)) == path
  {
    if |path| == 1 {
      SplitOne(path[0]);
    } else {
      SplitUndoesJoin(path[..|path| - 1]);
      SplitAtLastDot(Join(path[..|path| - 1]), path[|path| - 1]);
      assert path == path[..|path| - 1] + [path[|path| - 1]];
    }
  }

  lemma DistinctKeysDistinctPaths(a: string, b: string)
    ensures Split(a) == Split(b) <==> a == b
  {
    JoinUndoesSplit(a);
    JoinUndoesSplit(b);
  }

  /** A value set under a key is what the poll lookup of that key finds exactly when the key is not empty: the lookup of
      the empty key answers with the whole body. */
  lemma LookupFindsWhatWasSetIff(target: Fields, key: string, value: string)
    ensures Lookup(Object(SetPath(target, Split(key), value)), key) == Some(Text(value)) <==> key != ""
  {
    SetIsFound(target, Split(key), value);
  }

  // ---- Mappings in any iteration order ----

  /** An iteration order visits keys of the mapping, each at most once. */
  predicate Iterates(mapping: map<string, Rendered>, order: seq<string>) {
    Known(mapping, order) && forall i, j :: 0 <= i < j < |order| ==> order[i] != order[j]
  }

  /** No key of the mapping is a segment-wise prefix of another. */
  predicate KeysApart(mapping: map<string, Rendered>) {
    forall a, b :: a in mapping && b in mapping && a != b ==> Apart(Split(a), Split(b))
  }

  lemma {:induction false} EntryComesFrom(mapping: map<string, Rendered>, order: seq<string>, n: nat, i: nat)
    returns (k: nat)
    requires n <= |order| && Known(mapping, order) && i < |EntriesOf(mapping, order, n)|
    ensures k < n && EntriesOf(mapping, order, n)[i].path == Split(order[k])
  {
    if i < |EntriesOf(mapping, order, n - 1)| {
      k := EntryComesFrom(mapping, order, n - 1, i);
    } else {
      k := n - 1;
    }
  }

  lemma {:induction false} EntriesAreApart(mapping: map<string, Rendered>, order: seq<string>, n: nat)
    requires n <= |order| && Iterates(mapping, order) && KeysApart(mapping)
    ensures PrefixFree(EntriesOf(mapping, order, n))
  {
    if n > 0 {
      EntriesAreApart(mapping, order, n - 1);
      var entries := EntriesOf(mapping, order, n - 1);
      hide Apart, Split;
      forall i | 0 <= i < |entries| ensures Apart(entries[i].path, Split(order[n - 1])) {
        var k := EntryComesFrom(mapping, order, n - 1, i);
        assert order[k] != order[n - 1];
      }
    }
  }

  lemma {:induction false} KeyHasEntry(mapping: map<string, Rendered>, order: seq<string>, n: nat, k: nat)
    returns (i: nat)
    requires k < n <= |order| && Known(mapping, order) && mapping[order[k]].Value?
    ensures i < |EntriesOf(mapping, order, n)|
    ensures EntriesOf(mapping, order, n)[i] == Entry(Split(order[k]), mapping[order[k]].value)
  {
    if k < n - 1 {
      i := KeyHasEntry(mapping, order, n - 1, k);
    } else {
      i := |EntriesOf(mapping, order, n - 1)|;
    }
  }

  lemma {:induction false} SameStartSameEntries(mapping: map<string, Rendered>, a: seq<string>, b: seq<string>, n: nat)
    requires n <= |a| && n <= |b| && Known(mapping, a) && Known(mapping, b)
    requires forall i :: 0 <= i < n ==> a[i] == b[i]
    ensures EntriesOf(mapping, a, n) == EntriesOf(mapping, b, n)
  {
    if n > 0 {
      SameStartSameEntries(mapping, a, b, n - 1);
    }
  }

  lemma EntriesStep(mapping: map<string, Rendered>, order: seq<string>, n: nat)
    requires 0 < n <= |order| && Known(mapping, order)
    ensures multiset(EntriesOf(mapping, order, n)) ==
            multiset(EntriesOf(mapping, order, n - 1)) + multiset(EntryFor(mapping, order[n - 1]))
  {
  }

  lemma Exchange<T>(x: multiset<T>, y: multiset<T>, z: multiset<T>)
    ensures x + y + z == x + z + y
  {
  }

  lemma KnownWithout(mapping: map<string, Rendered>, order: seq<string>, k: nat)
    requires k < |order| && Known(mapping, order)
    ensures Known(mapping, Without(order, k))
  {
  }

  lemma {:induction false} EntriesPick(mapping: map<string, Rendered>, order: seq<string>, k: nat, n: nat)
    requires k < n <= |order| && Known(mapping, order)
    ensures Known(mapping, Without(order, k))
    ensures multiset(EntriesOf(mapping, order, n)) ==
            multiset(EntriesOf(mapping, Without(order, k), n - 1)) + multiset(EntryFor(mapping, order[k]))
  {
    hide EntriesOf, EntryFor;
    var rest := Without(order, k);
    KnownWithout(mapping, order, k);
    EntriesStep(mapping, order, n);
    if k == n - 1 {
      SameStartSameEntries(mapping, order, rest, k);
    } else {
      EntriesPick(mapping, order, k, n - 1);
      assert rest[n - 2] == order[n - 1];
      EntriesStep(mapping, rest, n - 1);
      Exchange(multiset(EntriesOf(mapping, rest, n - 2)), multiset(EntryFor(mapping, order[k])),
               multiset(EntryFor(mapping, order[n - 1])));
    }
  }

  lemma {:induction false} EntriesReordered(mapping: map<string, Rendered>, a: seq<string>, b: seq<string>)
    requires Known(mapping, a) && Known(mapping, b) && multiset(a) == multiset(b)
    ensures multiset(EntriesOf(mapping, a, |a|)) == multiset(EntriesOf(mapping, b, |b|))
    decreases |a|
  {
    hide EntriesOf, EntryFor, Without;
    if a == [] {
      EmptyReordered(a, b);
    } else {
      var front := a[..|a| - 1];
      SameStartSameEntries(mapping, a, front, |front|);
      EntriesStep(mapping, a, |a|);
      var k := LastElsewhere(a, b);
      EntriesPick(mapping, b, k, |b|);
      EntriesReordered(mapping, front, Without(b, k));
      WithoutLength(b, k);
    }
  }

  lemma WithoutLength<T>(s: seq<T>, k: nat)
    requires k < |s|
    ensures |Without(s, k)| == |s| - 1
  {
  }

  lemma LastElsewhere<T>(a: seq<T>, b: seq<T>) returns (k: nat)
    requires a != [] && multiset(a) == multiset(b)
    ensures k < |b| && b[k] == a[|a| - 1] && multiset(a[..|a| - 1]) == multiset(Without(b, k))
  {
    assert a[|a| - 1] in multiset(a);
    k := IndexOf(b, a[|a| - 1]);
    RemoveBoth(a, |a| - 1, b, k);
    assert Without(a, |a| - 1) == a[..|a| - 1];
  }

  /** The body of a mapping whose keys are apart is the same for every iteration order, and the poll lookup of each
      non-empty key finds its value. */
  lemma BodyIsSameForEveryOrder(mapping: map<string, Rendered>, a: seq<string>, b: seq<string>)
    requires Iterates(mapping, a) && Iterates(mapping, b) && KeysApart(mapping) && multiset(a) == multiset(b)
    ensures ValidEntries(EntriesOf(mapping, a, |a|)) && ValidEntries(EntriesOf(mapping, b, |b|))
    ensures Build(EntriesOf(mapping, a, |a|)) == Build(EntriesOf(mapping, b, |b|))
    ensures forall i :: 0 <= i < |a| && mapping[a[i]].Value? && a[i] != "" ==>
      Lookup(Object(Build(EntriesOf(mapping, a, |a|))), a[i]) == Some(Text(mapping[a[i]].value))
  {
    EntriesAreValid(mapping, a, |a|);
    EntriesAreValid(mapping, b, |b|);
    EntriesAreApart(mapping, a, |a|);
    EntriesReordered(mapping, a, b);
    hide Apart, Split, Build, KeysApart, EntriesOf;
    AllOrdersAgree(EntriesOf(mapping, a, |a|), EntriesOf(mapping, b, |b|));
    forall k | 0 <= k < |a| && mapping[a[k]].Value? && a[k] != ""
      ensures Lookup(Object(Build(EntriesOf(mapping, a, |a|))), a[k]) == Some(Text(mapping[a[k]].value))
    {
      var i := KeyHasEntry(mapping, a, |a|, k);
      EachKeyIsFound(EntriesOf(mapping, a, |a|), i);
    }
  }

  /** In the body of a mapping whose keys are apart, in any iteration order: the value of each two-segment key is under
      its second segment in an object under its first, and that of each dot-free key under the key. */
  lemma EachKeyIsPlaced(mapping: map<string, Rendered>, order: seq<string>, k: nat)
    requires Iterates(mapping, order) && KeysApart(mapping) && k < |order| && mapping[order[k]].Value?
    ensures ValidEntries(EntriesOf(mapping, order, |order|))
    ensures KeyPlaced(Build(EntriesOf(mapping, order, |order|)), order[k], mapping[order[k]].value)
  {
    EntriesAreValid(mapping, order, |order|);
    EntriesAreApart(mapping, order, |order|);
    hide Apart, Split, Build, KeysApart, EntriesOf, Lookup;
    var i := KeyHasEntry(mapping, order, |order|, k);
    EachKeyIsFound(EntriesOf(mapping, order, |order|), i);
    FoundIsPlaced(Build(EntriesOf(mapping, order, |order|)), order[k], mapping[order[k]].value);
  }

  lemma FoundIsPlaced(fields: Fields, key: string, value: string)
    requires LookupPath(Object(fields), Split(key)) == Some(Text(value))
    ensures KeyPlaced(fields, key, value)
  {
    hide LookupPath, Split;
    forall x, y | DotFree(x) && DotFree(y) && key == x + "." + y ensures Nests(fields, x, y, value) {
      SplitPair(x, y);
      LookupShort(Object(fields), x, y);
    }
    if DotFree(key) {
      SplitOne(key);
      LookupShort(Object(fields), key, "");
    }
  }
}
