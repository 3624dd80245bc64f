/**
 The compatibility relation between two versions of a contract surface: JSON trees in which keys
 may be added, values may be added to enumerations and responses, and nothing else may change.
 */
module Compatibility {
  import opened Wrappers

  datatype Field = Field(name: string, value: Json)

  datatype Json =
    | Null
    | Bool(b: bool)
    | Int(i: int)
    | Float(r: real)
    | Str(s: string)
    | Arr(items: seq<Json>)
    | Obj(fields: seq<Field>)

  datatype Problem =
    | ChangedKind(path: string)
    | Removed(path: string, key: string)
    | RemovedValues(path: string)
    | Changed(path: string, was: Json, now: Json)

  function Lookup(fields: seq<Field>, name: string): (value: Option<Json>)
    ensures value.Some? ==> exists i :: 0 <= i < |fields| && fields[i] == Field(name, value.value)
    ensures value.None? ==> forall i | 0 <= i < |fields| :: fields[i].name != name
  {
    if fields == [] then None
    else if fields[0].name == name then Some(fields[0].value)
    else Lookup(fields[1..], name)
  }

  predicate DistinctNames(fields: seq<Field>) {
    forall i, j | 0 <= i < j < |fields| :: fields[i].name != fields[j].name
  }

  /** Objects have each key once, all the way down. */
  predicate WellFormed(x: Json) {
    match x
    case Arr(items) => forall i | 0 <= i < |items| :: WellFormed(items[i])
    case Obj(fields) => DistinctNames(fields) && forall i | 0 <= i < |fields| :: WellFormed(fields[i].value)
    case _ => true
  }

  lemma LookupFinds(fields: seq<Field>, i: nat)
    requires DistinctNames(fields) && i < |fields|
    ensures Lookup(fields, fields[i].name) == Some(fields[i].value)
  {
  }

  predicate IsNumeric(x: Json) {
    x.Bool? || x.Int? || x.Float?
  }

  function Numeric(x: Json): real
    requires IsNumeric(x)
  {
    match x
    case Bool(b) => if b then 1.0 else 0.0
    case Int(i) => i as real
    case Float(r) => r
  }

  /** Equality of parsed JSON: numbers and booleans by value, objects regardless of key order. */
  predicate Equal(x: Json, y: Json) {
    match (x, y)
    case (Null, Null) => true
    case (Str(s), Str(t)) => s == t
    case (Arr(a), Arr(b)) => |a| == |b| && forall i | 0 <= i < |a| :: Equal(a[i], b[i])
    case (Obj(a), Obj(b)) =>
      && (forall i | 0 <= i < |a| :: Lookup(b, a[i].name).Some? && Equal(a[i].value, Lookup(b, a[i].name).value))
      && (forall i | 0 <= i < |b| :: Lookup(a, b[i].name).Some?)
    case _ => IsNumeric(x) && IsNumeric(y) && Numeric(x) == Numeric(y)
  }

  predicate EndsWith(path: string, suffix: string) {
    |suffix| <= |path| && path[|path| - |suffix|..] == suffix
  }

  predicate IsExtensible(path: string) {
    EndsWith(path, ":enum") || EndsWith(path, ".responses")
  }

  function Shown(show: Json -> string, items: seq<Json>): set<string> {
    set i | 0 <= i < |items| :: show(items[i])
  }

  function Compatible(show: Json -> string, older: Json, newer: Json, path: string): seq<Problem>
    decreases older, 1
  {
    if older.Obj? then
      if !newer.Obj? then [ChangedKind(path)] else FieldProblems(show, older.fields, newer.fields, path)
    else if IsExtensible(path) && older.Arr? && newer.Arr? then
      if Shown(show, older.items) <= Shown(show, newer.items) then [] else [RemovedValues(path)]
    else if Equal(older, newer) then [] else [Changed(path, older, newer)]
  }

  /** The problems of an object's fields, in the order of the old object. */
  function FieldProblems(show: Json -> string, fields: seq<Field>, others: seq<Field>, path: string): seq<Problem>
    decreases fields, 0
  {
    if fields == [] then []
    else
      var last := fields[|fields| - 1];
      var other := Lookup(others, last.name);
      FieldProblems(show, fields[..|fields| - 1], others, path) +
      if other.None? then [Removed(path, last.name)]
      else Compatible(show, last.value, other.value, path + "." + last.name)
  }

  method CheckCompatible(show: Json -> string, older: Json, newer: Json, path: string) returns (errors: seq<Problem>)
    ensures errors == Compatible(show, older, newer, path)
    decreases older
  {
    if older.Obj? {
      if !newer.Obj? {
        return [ChangedKind(path)];
      }
      errors := [];
      for i := 0 to |older.fields|
        invariant errors == FieldProblems(show, older.fields[..i], newer.fields, path)
      {
        var field := older.fields[i];
        assert older.fields[..i + 1][..i] == older.fields[..i];
        var other := Lookup(newer.fields, field.name);
        if other.None? {
          errors := errors + [Removed(path, field.name)];
        } else {
          var nested := CheckCompatible(show, field.value, other.value, path + "." + field.name);
          errors := errors + nested;
        }
      }
      assert older.fields[..|older.fields|] == older.fields;
      return errors;
    }
    if IsExtensible(path) && older.Arr? && newer.Arr? {
      return if Shown(show, older.items) <= Shown(show, newer.items) then [] else [RemovedValues(path)];
    }
    return if Equal(older, newer) then [] else [Changed(path, older, newer)];
  }

  // ---------------------------------------------------------------------------------------------
  // What an empty report means

  /** The value a chain of keys leads to. */
  function At(x: Json, keys: seq<string>): Option<Json> {
    if keys == [] then Some(x)
    else if !x.Obj? || Lookup(x.fields, keys[0]).None? then None
    else At(Lookup(x.fields, keys[0]).value, keys[1..])
  }

  function PathOf(path: string, keys: seq<string>): string
    decreases keys
  {
    if keys == [] then path else PathOf(path + "." + keys[0], keys[1..])
  }

  /** Whether a value may take the place of another: objects by objects, lists as their path allows. */
  predicate MayReplace(show: Json -> string, was: Json, now: Json, path: string) {
    if was.Obj? then now.Obj?
    else if IsExtensible(path) && was.Arr? && now.Arr? then Shown(show, was.items) <= Shown(show, now.items)
    else Equal(was, now)
  }

  ghost predicate KeepsAt(show: Json -> string, older: Json, newer: Json, path: string, keys: seq<string>) {
    At(older, keys).Some? ==>
      At(newer, keys).Some? && MayReplace(show, At(older, keys).value, At(newer, keys).value, PathOf(path, keys))
  }

  /** Everything old is still there, however deep, and may be replaced by what is there now. */
  ghost predicate Extends(show: Json -> string, older: Json, newer: Json, path: string) {
    forall keys :: KeepsAt(show, older, newer, path, keys)
  }

  lemma {:induction false} FieldsClean(show: Json -> string, fields: seq<Field>, others: seq<Field>, path: string)
    ensures FieldProblems(show, fields, others, path) == [] <==>
            forall i | 0 <= i < |fields| ::
              Lookup(others, fields[i].name).Some?
              && Compatible(show, fields[i].value, Lookup(others, fields[i].name).value, path + "." + fields[i].name)
                 == []
  {
    hide Lookup, Compatible;
    if fields != [] {
      FieldsClean(show, fields[..|fields| - 1], others, path);
    }
  }

  lemma {:induction false} CompatibleExtends(
    show: Json -> string, older: Json, newer: Json, path: string, keys: seq<string>)
    requires Compatible(show, older, newer, path) == []
    ensures KeepsAt(show, older, newer, path, keys)
    decreases keys
  {
    if older.Obj? {
      FieldsClean(show, older.fields, newer.fields, path);
      if keys != [] && Lookup(older.fields, keys[0]).Some? {
        var value := Lookup(older.fields, keys[0]).value;
        assert exists i :: 0 <= i < |older.fields| && older.fields[i] == Field(keys[0], value);
        CompatibleExtends(show, value, Lookup(newer.fields, keys[0]).value, path + "." + keys[0], keys[1..]);
      }
    }
  }

  lemma {:induction false} ExtendsCompatible(show: Json -> string, older: Json, newer: Json, path: string)
    requires WellFormed(older) && Extends(show, older, newer, path)
    ensures Compatible(show, older, newer, path) == []
    decreases older
  {
    assert KeepsAt(show, older, newer, path, []);
    if older.Obj? {
      forall i | 0 <= i < |older.fields|
        ensures var name := older.fields[i].name;
                Lookup(newer.fields, name).Some?
                && Compatible(show, older.fields[i].value, Lookup(newer.fields, name).value, path + "." + name) == []
      {
        var Field(name, value) := older.fields[i];
        LookupFinds(older.fields, i);
        assert KeepsAt(show, older, newer, path, [name]);
        assert At(value, [name][1..]).Some?;
        forall keys ensures KeepsAt(show, value, Lookup(newer.fields, name).value, path + "." + name, keys) {
          assert KeepsAt(show, older, newer, path, [name] + keys);
          assert ([name] + keys)[1..] == keys;
        }
        ExtendsCompatible(show, value, Lookup(newer.fields, name).value, path + "." + name);
      }
      FieldsClean(show, older.fields, newer.fields, path);
    }
  }

  /** An empty report means exactly that everything old is kept at its place. */
  lemma CompatibleIffExtends(show: Json -> string, older: Json, newer: Json, path: string)
    requires WellFormed(older)
    ensures Compatible(show, older, newer, path) == [] <==> Extends(show, older, newer, path)
  {
    if Compatible(show, older, newer, path) == [] {
      forall keys ensures KeepsAt(show, older, newer, path, keys) {
        CompatibleExtends(show, older, newer, path, keys);
      }
    } else if Extends(show, older, newer, path) {
      ExtendsCompatible(show, older, newer, path);
    }
  }

  // ---------------------------------------------------------------------------------------------
  // What the report says of the values, as they can be seen

  /** A way into a value: by a key of an object or a position of a list. */
  datatype Turn = Key(name: string) | Item(index: nat)

  /** What there is at the end of a way. */
  datatype Sight = Nothing | ANull | ANumber(number: real) | AString(s: string) | AList(length: nat) | AnObject

  function See(x: Json, way: seq<Turn>): Sight
    decreases way
  {
    if way == [] then
      match x
      case Null => ANull
      case Bool(b) => ANumber(if b then 1.0 else 0.0)
      case Int(i) => ANumber(i as real)
      case Float(r) => ANumber(r)
      case Str(s) => AString(s)
      case Arr(items) => AList(|items|)
      case Obj(_) => AnObject
    else
      match way[0]
      case Key(name) =>
        if x.Obj? && Lookup(x.fields, name).Some? then See(Lookup(x.fields, name).value, way[1..]) else Nothing
      case Item(i) => if x.Arr? && i < |x.items| then See(x.items[i], way[1..]) else Nothing
  }

  /** The same scalars, list lengths and keys everywhere, all the way down. */
  ghost predicate LookTheSame(x: Json, y: Json) {
    forall way :: See(x, way) == See(y, way)
  }

  lemma {:induction false} EqualLooks(x: Json, y: Json, way: seq<Turn>)
    requires Equal(x, y)
    ensures See(x, way) == See(y, way)
    decreases way
  {
    if way != [] && x.Obj? && way[0].Key? {
      var name := way[0].name;
      if Lookup(x.fields, name).Some? {
        var i :| 0 <= i < |x.fields| && x.fields[i] == Field(name, Lookup(x.fields, name).value);
        EqualLooks(x.fields[i].value, Lookup(y.fields, name).value, way[1..]);
      }
    } else if way != [] && x.Arr? && way[0].Item? && way[0].index < |x.items| {
      EqualLooks(x.items[way[0].index], y.items[way[0].index], way[1..]);
    }
  }

  lemma LooksInside(x: Json, y: Json, turn: Turn, x': Json, y': Json)
    requires LookTheSame(x, y)
    requires forall way :: See(x, [turn] + way) == See(x', way) && See(y, [turn] + way) == See(y', way)
    ensures LookTheSame(x', y')
  {
    forall way ensures See(x', way) == See(y', way) {
      assert See(x, [turn] + way) == See(y, [turn] + way);
    }
  }

  lemma SeeKey(fields: seq<Field>, name: string)
    requires Lookup(fields, name).Some?
    ensures forall way :: See(Obj(fields), [Key(name)] + way) == See(Lookup(fields, name).value, way)
  {
    forall way ensures See(Obj(fields), [Key(name)] + way) == See(Lookup(fields, name).value, way) {
      assert ([Key(name)] + way)[1..] == way;
    }
  }

  lemma SeeItem(items: seq<Json>, i: nat)
    requires i < |items|
    ensures forall way :: See(Arr(items), [Item(i)] + way) == See(items[i], way)
  {
    forall way ensures See(Arr(items), [Item(i)] + way) == See(items[i], way) {
      assert ([Item(i)] + way)[1..] == way;
    }
  }

  /** Where there is a value, something is seen. */
  lemma SeesSomething(fields: seq<Field>, name: string)
    ensures See(Obj(fields), [Key(name)]) == Nothing <==> Lookup(fields, name).None?
  {
    assert [Key(name)][1..] == [];
    hide Lookup;
  }

  lemma SeesKeys(a: seq<Field>, b: seq<Field>, name: string)
    requires LookTheSame(Obj(a), Obj(b))
    ensures Lookup(a, name).Some? <==> Lookup(b, name).Some?
  {
    SeesSomething(a, name);
    SeesSomething(b, name);
    assert See(Obj(a), [Key(name)]) == See(Obj(b), [Key(name)]);
    hide See, Lookup;
  }

  lemma {:induction false} LooksEqual(x: Json, y: Json)
    requires WellFormed(x) && LookTheSame(x, y)
    ensures Equal(x, y)
    decreases x
  {
    assert See(x, []) == See(y, []);
    match (x, y) {
      case (Arr(a), Arr(b)) =>
        forall i | 0 <= i < |a| ensures Equal(a[i], b[i]) {
          SeeItem(a, i);
          SeeItem(b, i);
          LooksInside(x, y, Item(i), a[i], b[i]);
          LooksEqual(a[i], b[i]);
        }
      case (Obj(a), Obj(b)) =>
        forall i | 0 <= i < |a| ensures Lookup(b, a[i].name).Some? && Equal(a[i].value, Lookup(b, a[i].name).value) {
          LookupFinds(a, i);
          SeesKeys(a, b, a[i].name);
          SeeKey(a, a[i].name);
          SeeKey(b, a[i].name);
          LooksInside(x, y, Key(a[i].name), a[i].value, Lookup(b, a[i].name).value);
          LooksEqual(a[i].value, Lookup(b, a[i].name).value);
        }
        forall i | 0 <= i < |b| ensures Lookup(a, b[i].name).Some? {
          SeesKeys(a, b, b[i].name);
        }
      case _ =>
    }
  }

  /** What looking the same means for each kind of value. */
  ghost predicate AgreeOutside(x: Json, y: Json) {
    match (x, y)
    case (Null, Null) => true
    case (Str(s), Str(t)) => s == t
    case (Arr(a), Arr(b)) => |a| == |b| && forall i | 0 <= i < |a| :: LookTheSame(a[i], b[i])
    case (Obj(a), Obj(b)) =>
      forall name :: (Lookup(a, name).Some? <==> Lookup(b, name).Some?)
        && (Lookup(a, name).Some? ==> LookTheSame(Lookup(a, name).value, Lookup(b, name).value))
    case _ => See(x, []).ANumber? && See(y, []) == See(x, [])
  }

  lemma LooksIffAgrees(x: Json, y: Json)
    ensures LookTheSame(x, y) <==> AgreeOutside(x, y)
  {
    if LookTheSame(x, y) {
      LooksAgree(x, y);
    }
    if AgreeOutside(x, y) {
      forall way ensures See(x, way) == See(y, way) {
        AgreeLooks(x, y, way);
      }
    }
  }

  lemma LooksAgree(x: Json, y: Json)
    requires LookTheSame(x, y)
    ensures AgreeOutside(x, y)
  {
    assert See(x, []) == See(y, []);
    if x.Arr? {
      forall i | 0 <= i < |x.items| ensures LookTheSame(x.items[i], y.items[i]) {
        SeeItem(x.items, i);
        SeeItem(y.items, i);
        LooksInside(x, y, Item(i), x.items[i], y.items[i]);
      }
    } else if x.Obj? {
      forall name
        ensures Lookup(x.fields, name).Some? <==> Lookup(y.fields, name).Some?
        ensures Lookup(x.fields, name).Some? ==>
                  LookTheSame(Lookup(x.fields, name).value, Lookup(y.fields, name).value)
      {
        SeesKeys(x.fields, y.fields, name);
        if Lookup(x.fields, name).Some? {
          SeeKey(x.fields, name);
          SeeKey(y.fields, name);
          LooksInside(x, y, Key(name), Lookup(x.fields, name).value, Lookup(y.fields, name).value);
        }
      }
    }
  }

  lemma AgreeLooks(x: Json, y: Json, way: seq<Turn>)
    requires AgreeOutside(x, y)
    ensures See(x, way) == See(y, way)
  {
    hide Lookup;
    if way != [] && way[0].Key? && x.Obj? && Lookup(x.fields, way[0].name).Some? {
      var name := way[0].name;
      assert See(Lookup(x.fields, name).value, way[1..]) == See(Lookup(y.fields, name).value, way[1..]);
    } else if way != [] && way[0].Item? && x.Arr? && way[0].index < |x.items| {
      var i := way[0].index;
      assert See(x.items[i], way[1..]) == See(y.items[i], way[1..]);
    }
  }

  /** Places where values may be added to a list. */
  ghost predicate MayGrow(place: string) {
    exists stem: string :: place == stem + ":enum" || place == stem + ".responses"
  }

  lemma GrowsAtSuffix(place: string)
    ensures MayGrow(place) <==> IsExtensible(place)
  {
    if EndsWith(place, ":enum") {
      assert place == place[..|place| - 5] + ":enum";
    } else if EndsWith(place, ".responses") {
      assert place == place[..|place| - 10] + ".responses";
    }
    if MayGrow(place) {
      var stem: string :| place == stem + ":enum" || place == stem + ".responses";
      assert place == stem + ":enum" ==> place[|stem|..] == ":enum";
      assert place == stem + ".responses" ==> place[|stem|..] == ".responses";
    }
  }

  predicate IsShown(show: Json -> string, items: seq<Json>, text: string) {
    exists j :: 0 <= j < |items| && show(items[j]) == text
  }

  /** What stands for the old value at a place, in terms of what can be seen of both. */
  ghost predicate MayStandFor(show: Json -> string, was: Json, now: Json, place: string) {
    if was.Obj? then now.Obj?
    else if MayGrow(place) && was.Arr? && now.Arr? then
      forall i | 0 <= i < |was.items| :: IsShown(show, now.items, show(was.items[i]))
    else LookTheSame(was, now)
  }

  lemma {:induction false} WellFormedAt(x: Json, keys: seq<string>)
    requires WellFormed(x) && At(x, keys).Some?
    ensures WellFormed(At(x, keys).value)
    decreases keys
  {
    if keys != [] {
      var value := Lookup(x.fields, keys[0]).value;
      var i :| 0 <= i < |x.fields| && x.fields[i] == Field(keys[0], value);
      WellFormedAt(value, keys[1..]);
    }
  }

  lemma StandsForIffReplaces(show: Json -> string, was: Json, now: Json, place: string)
    requires WellFormed(was)
    ensures MayReplace(show, was, now, place) <==> MayStandFor(show, was, now, place)
  {
    GrowsAtSuffix(place);
    if !was.Obj? && MayGrow(place) && was.Arr? && now.Arr? {
      ShownIsCovered(show, was.items, now.items);
    } else if !was.Obj? {
      if Equal(was, now) {
        forall way ensures See(was, way) == See(now, way) {
          EqualLooks(was, now, way);
        }
      } else if LookTheSame(was, now) {
        LooksEqual(was, now);
      }
    }
  }

  lemma ShownIsCovered(show: Json -> string, was: seq<Json>, now: seq<Json>)
    ensures Shown(show, was) <= Shown(show, now) <==>
            forall i | 0 <= i < |was| :: IsShown(show, now, show(was[i]))
  {
    forall text ensures text in Shown(show, was) <==> IsShown(show, was, text) {
    }
    forall text ensures text in Shown(show, now) <==> IsShown(show, now, text) {
    }
    if Shown(show, was) <= Shown(show, now) {
      forall i | 0 <= i < |was| ensures IsShown(show, now, show(was[i])) {
        assert show(was[i]) in Shown(show, was);
      }
    } else {
      var text :| text in Shown(show, was) && text !in Shown(show, now);
      var i :| 0 <= i < |was| && show(was[i]) == text;
      assert !IsShown(show, now, show(was[i]));
    }
  }

  /**
   The report holds a problem if and only if some chain of keys, through objects of both trees, leads
   to it: an object that is none any more, a key that is gone, a list that may grow and has lost a
   value, or any other value that does not look the same any more.
   */
  ghost predicate IsProblemAt(show: Json -> string, p: Problem, older: Json, newer: Json, path: string,
                              keys: seq<string>)
  {
    At(older, keys).Some? && At(newer, keys).Some?
    && var was, now, place := At(older, keys).value, At(newer, keys).value, PathOf(path, keys);
       match p
       case ChangedKind(at) => at == place && was.Obj? && !now.Obj?
       case Removed(at, key) =>
         at == place && was.Obj? && now.Obj? && Lookup(was.fields, key).Some? && Lookup(now.fields, key).None?
       case RemovedValues(at) =>
         at == place && MayGrow(place) && was.Arr? && now.Arr? && !MayStandFor(show, was, now, place)
       case Changed(at, a, b) =>
         at == place && a == was && b == now && !was.Obj? && !(MayGrow(place) && was.Arr? && now.Arr?)
         && !LookTheSame(was, now)
  }

  lemma {:induction false} FieldReports(show: Json -> string, fields: seq<Field>, others: seq<Field>, path: string,
                                        p: Problem)
    ensures p in FieldProblems(show, fields, others, path) <==>
            exists i :: 0 <= i < |fields| && p in FieldReport(show, fields[i], others, path)
  {
    hide Lookup, Compatible;
    if fields != [] {
      var before, last := fields[..|fields| - 1], fields[|fields| - 1];
      FieldReports(show, before, others, path, p);
      assert FieldProblems(show, fields, others, path)
          == FieldProblems(show, before, others, path) + FieldReport(show, last, others, path);
      if p in FieldProblems(show, before, others, path) {
        var i :| 0 <= i < |before| && p in FieldReport(show, before[i], others, path);
        assert before[i] == fields[i];
      }
      forall i | 0 <= i < |fields| && p in FieldReport(show, fields[i], others, path)
        ensures p in FieldProblems(show, fields, others, path)
      {
        if i < |before| {
          assert before[i] == fields[i];
        }
      }
    }
  }

  /** The part of an object's report that one of its fields gives. */
  function FieldReport(show: Json -> string, field: Field, others: seq<Field>, path: string): seq<Problem> {
    var other := Lookup(others, field.name);
    if other.None? then [Removed(path, field.name)]
    else Compatible(show, field.value, other.value, path + "." + field.name)
  }

  lemma LastIsReported(show: Json -> string, fields: seq<Field>, others: seq<Field>, path: string)
    ensures fields == [] ==> FieldProblems(show, fields, others, path) == []
    ensures fields != [] ==>
              FieldProblems(show, fields, others, path)
              == FieldProblems(show, fields[..|fields| - 1], others, path)
                 + FieldReport(show, fields[|fields| - 1], others, path)
  {
    hide Lookup, Compatible;
  }

  /** An object's report is that of its fields, one after the other. */
  lemma {:induction false} ReportInOrder(show: Json -> string, fields: seq<Field>, more: seq<Field>, others: seq<Field>,
                                         path: string)
    ensures FieldProblems(show, fields + more, others, path)
         == FieldProblems(show, fields, others, path) + FieldProblems(show, more, others, path)
    decreases |more|
  {
    hide FieldProblems, FieldReport;
    LastIsReported(show, more, others, path);
    if more == [] {
      assert fields + more == fields;
      assert FieldProblems(show, fields, others, path) + [] == FieldProblems(show, fields, others, path);
    } else {
      var all := fields + more;
      assert all[..|all| - 1] == fields + more[..|more| - 1] && all[|all| - 1] == more[|more| - 1];
      LastIsReported(show, all, others, path);
      ReportInOrder(show, fields, more[..|more| - 1], others, path);
    }
  }

  lemma {:induction false} FindProblem(show: Json -> string, p: Problem, older: Json, newer: Json, path: string)
    returns (keys: seq<string>)
    requires WellFormed(older) && p in Compatible(show, older, newer, path)
    ensures IsProblemAt(show, p, older, newer, path, keys)
    decreases older
  {
    keys := [];
    if older.Obj? && newer.Obj? {
      FieldReports(show, older.fields, newer.fields, path, p);
      var i :| 0 <= i < |older.fields| && p in FieldReport(show, older.fields[i], newer.fields, path);
      var Field(name, value) := older.fields[i];
      LookupFinds(older.fields, i);
      if Lookup(newer.fields, name).Some? {
        var rest := FindProblem(show, p, value, Lookup(newer.fields, name).value, path + "." + name);
        keys := [name] + rest;
        assert keys[1..] == rest;
      }
    } else if !older.Obj? {
      StandsForIffReplaces(show, older, newer, path);
      GrowsAtSuffix(path);
    }
  }

  lemma {:induction false} ReportsProblem(show: Json -> string, p: Problem, older: Json, newer: Json, path: string,
                                          keys: seq<string>)
    requires WellFormed(older) && IsProblemAt(show, p, older, newer, path, keys)
    ensures p in Compatible(show, older, newer, path)
    decreases keys
  {
    if keys == [] {
      if older.Obj? && newer.Obj? {
        var i :| 0 <= i < |older.fields| && older.fields[i] == Field(p.key, Lookup(older.fields, p.key).value);
        assert p in FieldReport(show, older.fields[i], newer.fields, path);
        FieldReports(show, older.fields, newer.fields, path, p);
      } else if !older.Obj? {
        StandsForIffReplaces(show, older, newer, path);
        GrowsAtSuffix(path);
      }
    } else {
      var name := keys[0];
      var value, other := Lookup(older.fields, name).value, Lookup(newer.fields, name).value;
      var i :| 0 <= i < |older.fields| && older.fields[i] == Field(name, value);
      ReportsProblem(show, p, value, other, path + "." + name, keys[1..]);
      assert p in FieldReport(show, older.fields[i], newer.fields, path);
      FieldReports(show, older.fields, newer.fields, path, p);
    }
  }

  /** The report holds exactly the problems there are, each at its place. */
  lemma ReportIsExact(show: Json -> string, p: Problem, older: Json, newer: Json, path: string)
    requires WellFormed(older)
    ensures p in Compatible(show, older, newer, path) <==> exists keys :: IsProblemAt(show, p, older, newer, path, keys)
  {
    hide Compatible, IsProblemAt;
    if p in Compatible(show, older, newer, path) {
      var keys := FindProblem(show, p, older, newer, path);
    } else if exists keys :: IsProblemAt(show, p, older, newer, path, keys) {
      var keys :| IsProblemAt(show, p, older, newer, path, keys);
      ReportsProblem(show, p, older, newer, path, keys);
    }
  }

  ghost predicate StandsAt(show: Json -> string, older: Json, newer: Json, path: string, keys: seq<string>) {
    At(older, keys).Some? ==>
      At(newer, keys).Some? && MayStandFor(show, At(older, keys).value, At(newer, keys).value, PathOf(path, keys))
  }

  /**
   The report is empty if and only if every chain of keys of the old tree leads to a value of the new
   one that may stand for the old value: an object for an object, a list that has kept every value where
   values may be added, and what looks the same everywhere else.
   */
  lemma CompatibleIffStands(show: Json -> string, older: Json, newer: Json, path: string)
    requires WellFormed(older)
    ensures Compatible(show, older, newer, path) == [] <==>
            forall keys :: StandsAt(show, older, newer, path, keys)
  {
    hide Compatible, MayReplace, MayStandFor;
    CompatibleIffExtends(show, older, newer, path);
    forall keys ensures KeepsAt(show, older, newer, path, keys) <==> StandsAt(show, older, newer, path, keys) {
      if At(older, keys).Some? && At(newer, keys).Some? {
        WellFormedAt(older, keys);
        StandsForIffReplaces(show, At(older, keys).value, At(newer, keys).value, PathOf(path, keys));
      }
    }
  }

  // ---------------------------------------------------------------------------------------------
  // Accepted changes compose

  lemma {:induction false} EqualReflexive(x: Json)
    requires WellFormed(x)
    ensures Equal(x, x)
    decreases x
  {
    match x {
      case Arr(items) =>
        forall i | 0 <= i < |items| ensures Equal(items[i], items[i]) {
          EqualReflexive(items[i]);
        }
      case Obj(fields) =>
        forall i | 0 <= i < |fields|
          ensures Lookup(fields, fields[i].name).Some? && Equal(fields[i].value, Lookup(fields, fields[i].name).value)
        {
          LookupFinds(fields, i);
          EqualReflexive(fields[i].value);
        }
      case _ =>
    }
  }

  lemma NamesTransitive(a: seq<Field>, b: seq<Field>, c: seq<Field>)
    requires forall i | 0 <= i < |b| :: Lookup(a, b[i].name).Some?
    requires forall i | 0 <= i < |c| :: Lookup(b, c[i].name).Some?
    ensures forall i | 0 <= i < |c| :: Lookup(a, c[i].name).Some?
  {
    forall i | 0 <= i < |c| ensures Lookup(a, c[i].name).Some? {
      var j :| 0 <= j < |b| && b[j].name == c[i].name;
    }
  }

  lemma {:induction false} EqualTransitive(x: Json, y: Json, z: Json)
    requires Equal(x, y) && Equal(y, z)
    ensures Equal(x, z)
    decreases x
  {
    match (x, y, z) {
      case (Arr(a), Arr(b), Arr(c)) =>
        forall i | 0 <= i < |a| ensures Equal(a[i], c[i]) {
          EqualTransitive(a[i], b[i], c[i]);
        }
      case (Obj(a), Obj(b), Obj(c)) =>
        forall i | 0 <= i < |a|
          ensures Lookup(c, a[i].name).Some? && Equal(a[i].value, Lookup(c, a[i].name).value)
        {
          var inB := Lookup(b, a[i].name);
          var j :| 0 <= j < |b| && b[j] == Field(a[i].name, inB.value);
          EqualTransitive(a[i].value, inB.value, Lookup(c, a[i].name).value);
        }
        NamesTransitive(a, b, c);
      case _ =>
    }
  }

  lemma MayReplaceTransitive(show: Json -> string, x: Json, y: Json, z: Json, path: string)
    requires MayReplace(show, x, y, path) && MayReplace(show, y, z, path)
    ensures MayReplace(show, x, z, path)
  {
    if !x.Obj? && !y.Obj? && Equal(x, y) && Equal(y, z) {
      EqualTransitive(x, y, z);
    }
  }

  lemma {:induction false} MayReplaceItself(show: Json -> string, x: Json, path: string, keys: seq<string>)
    requires WellFormed(x)
    ensures KeepsAt(show, x, x, path, keys)
    decreases keys
  {
    if keys == [] {
      EqualReflexive(x);
    } else if x.Obj? && Lookup(x.fields, keys[0]).Some? {
      MayReplaceItself(show, Lookup(x.fields, keys[0]).value, path + "." + keys[0], keys[1..]);
    }
  }

  /** A contract is compatible with itself, and a chain of accepted changes is itself accepted. */
  lemma CompatibleIsPreorder(show: Json -> string, older: Json, mid: Json, newer: Json, path: string)
    requires WellFormed(older) && WellFormed(mid)
    ensures Compatible(show, older, older, path) == []
    ensures Compatible(show, older, mid, path) == [] && Compatible(show, mid, newer, path) == [] ==>
              Compatible(show, older, newer, path) == []
  {
    forall keys ensures KeepsAt(show, older, older, path, keys) {
      MayReplaceItself(show, older, path, keys);
    }
    ExtendsCompatible(show, older, older, path);
    if Compatible(show, older, mid, path) == [] && Compatible(show, mid, newer, path) == [] {
      forall keys ensures KeepsAt(show, older, newer, path, keys) {
        CompatibleExtends(show, older, mid, path, keys);
        CompatibleExtends(show, mid, newer, path, keys);
        if At(older, keys).Some? {
          MayReplaceTransitive(show, At(older, keys).value, At(mid, keys).value, At(newer, keys).value,
              PathOf(path, keys));
        }
      }
      ExtendsCompatible(show, older, newer, path);
    }
  }
}
