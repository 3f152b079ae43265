/**
 * Every value `Parse` builds is well formed: merging repeated member
 * names leaves each object with distinct names, at every depth.
 */
module JsonParseShape {
  import opened Wrappers
  import opened JsText
  import opened Json
  import opened JsonCodec

  function KeySet(fields: seq<Field>): set<string> {
    set i | 0 <= i < |fields| :: fields[i].key
  }

  predicate ValuesWellFormed(fields: seq<Field>) {
    forall i | 0 <= i < |fields| :: WellFormed(fields[i].value)
  }

  predicate ItemsWellFormed(items: seq<Json>) {
    forall i | 0 <= i < |items| :: WellFormed(items[i])
  }

  lemma KeySetCons(x: Field, rest: seq<Field>)
    ensures KeySet([x] + rest) == {x.key} + KeySet(rest)
  {
    var l := [x] + rest;
    assert l[0] == x;
    assert forall i | 0 <= i < |rest| :: l[i + 1] == rest[i];
    forall k | k in KeySet(l) ensures k in {x.key} + KeySet(rest) {
      var i :| 0 <= i < |l| && l[i].key == k;
      if i > 0 {
        assert rest[i - 1].key == k;
        assert k in KeySet(rest);
      }
    }
    forall k | k in KeySet(rest) ensures k in KeySet(l) {
      var i :| 0 <= i < |rest| && rest[i].key == k;
      assert l[i + 1].key == k;
    }
    assert x.key in KeySet(l);
  }

  lemma UniqueCons(x: Field, rest: seq<Field>)
    ensures UniqueKeys([x] + rest) <==> x.key !in KeySet(rest) && UniqueKeys(rest)
  {
    var l := [x] + rest;
    assert l[0] == x;
    assert forall i | 0 <= i < |rest| :: l[i + 1] == rest[i];
    if x.key !in KeySet(rest) && UniqueKeys(rest) {
      forall i, j | 0 <= i < j < |l| ensures l[i].key != l[j].key {
        if i == 0 {
          assert l[j].key == rest[j - 1].key && rest[j - 1].key in KeySet(rest);
        } else {
          assert l[i] == rest[i - 1] && l[j] == rest[j - 1];
        }
      }
    }
    if UniqueKeys(l) {
      forall i, j | 0 <= i < j < |rest| ensures rest[i].key != rest[j].key {
        assert l[i + 1].key != l[j + 1].key;
      }
      forall k | k in KeySet(rest) ensures k != x.key {
        var i :| 0 <= i < |rest| && rest[i].key == k;
        assert l[0].key != l[i + 1].key;
      }
    }
  }

  lemma ValuesCons(x: Field, rest: seq<Field>)
    ensures ValuesWellFormed([x] + rest) <==> WellFormed(x.value) && ValuesWellFormed(rest)
  {
    var l := [x] + rest;
    assert forall i | 0 <= i < |rest| :: l[i + 1] == rest[i];
    assert l[0] == x;
    if WellFormed(x.value) && ValuesWellFormed(rest) {
      forall i | 0 <= i < |l| ensures WellFormed(l[i].value) {
        if i > 0 {
          assert l[i] == rest[i - 1];
        }
      }
    }
  }

  /** Assigning a member adds its name to the object's names, keeps them distinct, and keeps every value well formed. */
  lemma {:induction false} PutKeepsShape(acc: seq<Field>, f: Field)
    requires UniqueKeys(acc) && ValuesWellFormed(acc) && WellFormed(f.value)
    ensures KeySet(Put(acc, f)) == KeySet(acc) + {f.key}
    ensures UniqueKeys(Put(acc, f)) && ValuesWellFormed(Put(acc, f))
  {
    if acc == [] {
      assert Put(acc, f) == [f] + [];
      KeySetCons(f, []);
      UniqueCons(f, []);
      ValuesCons(f, []);
    } else {
      var tail := acc[1..];
      assert acc == [acc[0]] + tail;
      KeySetCons(acc[0], tail);
      UniqueCons(acc[0], tail);
      ValuesCons(acc[0], tail);
      if acc[0].key == f.key {
        assert Put(acc, f) == [f] + tail;
        KeySetCons(f, tail);
        UniqueCons(f, tail);
        ValuesCons(f, tail);
      } else {
        PutKeepsShape(tail, f);
        var pt := Put(tail, f);
        assert Put(acc, f) == [acc[0]] + pt;
        KeySetCons(acc[0], pt);
        UniqueCons(acc[0], pt);
        ValuesCons(acc[0], pt);
      }
    }
  }

  /** Assigning members one by one keeps the object's names distinct and its values well formed. */
  lemma {:induction false} CollapseKeepsShape(acc: seq<Field>, fs: seq<Field>)
    requires UniqueKeys(acc) && ValuesWellFormed(acc) && ValuesWellFormed(fs)
    ensures UniqueKeys(Collapse(acc, fs)) && ValuesWellFormed(Collapse(acc, fs))
    decreases fs
  {
    if fs != [] {
      PutKeepsShape(acc, fs[0]);
      assert ValuesWellFormed(fs[1..]) by {
        forall i | 0 <= i < |fs| - 1 ensures WellFormed(fs[1..][i].value) {
          assert fs[1..][i] == fs[i + 1];
        }
      }
      CollapseKeepsShape(Put(acc, fs[0]), fs[1..]);
    }
  }

  lemma {:induction false} ValueShape(s: string)
    ensures ParseValue(s).Some? ==> WellFormed(ParseValue(s).value.0)
    decreases |s|, 1
  {
    var t := SkipWs(s);
    if t != [] && t[0] == '[' {
      ArrayShape(t[1..]);
    } else if t != [] && t[0] == '{' {
      ObjectShape(t[1..]);
    }
  }

  lemma {:induction false} ArrayShape(s: string)
    ensures ParseArray(s).Some? ==> WellFormed(ParseArray(s).value.0)
    decreases |s|, 3
  {
    var t := SkipWs(s);
    if !(t != [] && t[0] == ']') {
      ElementsShape(t);
    }
  }

  lemma {:induction false} ElementsShape(s: string)
    ensures ParseElements(s).Some? ==> ItemsWellFormed(ParseElements(s).value.0)
    decreases |s|, 2
  {
    ValueShape(s);
    match ParseValue(s)
    case None =>
    case Some((v, after)) =>
      var u := SkipWs(after);
      if u != [] && u[0] == ',' {
        ElementsShape(u[1..]);
        match ParseElements(u[1..])
        case None =>
        case Some((vs, rest)) =>
          var items := [v] + vs;
          assert forall i | 0 < i < |items| :: items[i] == vs[i - 1];
      }
  }

  lemma {:induction false} ObjectShape(s: string)
    ensures ParseObject(s).Some? ==> WellFormed(ParseObject(s).value.0)
    decreases |s|, 4
  {
    var t := SkipWs(s);
    if !(t != [] && t[0] == '}') {
      MembersShape(t);
      match ParseMembers(t)
      case None =>
      case Some((fields, rest)) =>
        CollapseKeepsShape([], fields);
    }
  }

  lemma {:induction false} MembersShape(s: string)
    ensures ParseMembers(s).Some? ==> ValuesWellFormed(ParseMembers(s).value.0)
    decreases |s|, 3
  {
    MemberShape(s);
    match ParseMember(s)
    case None =>
    case Some((f, after)) =>
      var w := SkipWs(after);
      if w != [] && w[0] == ',' {
        MembersShape(w[1..]);
        match ParseMembers(w[1..])
        case None =>
        case Some((fs, rest)) =>
          var fields := [f] + fs;
          assert forall i | 0 < i < |fields| :: fields[i] == fs[i - 1];
      }
  }

  lemma {:induction false} MemberShape(s: string)
    ensures ParseMember(s).Some? ==> WellFormed(ParseMember(s).value.0.value)
    decreases |s|, 2
  {
    var t := SkipWs(s);
    if t != [] && t[0] == '"' {
      match ParseStringBody(t[1..])
      case None =>
      case Some((key, afterKey)) =>
        var u := SkipWs(afterKey);
        if u != [] && u[0] == ':' {
          ValueShape(u[1..]);
        }
    }
  }

  /** `JSON.parse` only ever yields well-formed values. */
  lemma ParseWellFormed(s: string)
    ensures Parse(s).Some? ==> WellFormed(Parse(s).value)
  {
    ValueShape(s);
  }
}
