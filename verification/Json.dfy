/** JSON values and the removal of secret-named fields before hashing
    (runtime/tool_gateway.py, sanitize_args). */
module Json {
  import opened Prelude

  datatype Json =
    | JNull
    | JBool(b: bool)
    | JNum(n: real)
    | JStr(s: string)
    | JArr(items: seq<Json>)
    | JObj(fields: map<string, Json>)

  type Args = map<string, Json>

  const SECRET_FIELD_PATTERNS: seq<string> := ["_key", "_token", "_secret", "password", "authorization"]

  function LowerChar(c: char): char {
    if 'A' <= c <= 'Z' then c - 'A' + 'a' else c
  }

  function Lower(s: string): string {
    seq(|s|, i requires 0 <= i < |s| => LowerChar(s[i]))
  }

  predicate Contains(s: string, pattern: string) {
    exists i :: 0 <= i <= |s| && pattern <= s[i..]
  }

  predicate IsSecret(name: string) {
    exists i :: 0 <= i < |SECRET_FIELD_PATTERNS| && Contains(Lower(name), SECRET_FIELD_PATTERNS[i])
  }

  /** Drops every field with a secret name, at any depth. */
  function Strip(v: Json): Json {
    match v
    case JObj(m) => JObj(map k | k in m && !IsSecret(k) :: Strip(m[k]))
    case JArr(xs) => JArr(seq(|xs|, i requires 0 <= i < |xs| => Strip(xs[i])))
    case _ => v
  }

  function SanitizeArgs(args: Args): Args {
    map k | k in args && !IsSecret(k) :: Strip(args[k])
  }

  /** No object anywhere inside has a secret-named field. */
  ghost predicate SecretFree(v: Json) {
    match v
    case JObj(m) => forall k :: k in m ==> !IsSecret(k) && SecretFree(m[k])
    case JArr(xs) => forall i :: 0 <= i < |xs| ==> SecretFree(xs[i])
    case _ => true
  }

  lemma {:induction false} StripLeavesNoSecret(v: Json)
    ensures SecretFree(Strip(v))
  {
    match v
    case JObj(m) => forall k | k in m { StripLeavesNoSecret(m[k]); }
    case JArr(xs) => forall i | 0 <= i < |xs| { StripLeavesNoSecret(xs[i]); }
    case _ =>
  }

  /** Stripping is the identity on exactly the values without secrets. */
  lemma {:induction false} StripFixesSecretFree(v: Json)
    ensures Strip(v) == v <==> SecretFree(v)
  {
    if SecretFree(v) {
      match v
      case JObj(m) =>
        forall k | k in m ensures Strip(m[k]) == m[k] { StripFixesSecretFree(m[k]); }
        assert Strip(v).fields == m;
      case JArr(xs) =>
        forall i | 0 <= i < |xs| ensures Strip(xs[i]) == xs[i] { StripFixesSecretFree(xs[i]); }
        assert Strip(v).items == xs;
      case _ =>
    } else {
      StripLeavesNoSecret(v);
    }
  }

  /** One step into a value: a field or an array position. */
  datatype Key = Field(name: string) | Index(i: nat)

  function At(v: Json, path: seq<Key>): Option<Json>
    decreases |path|
  {
    if path == [] then Some(v)
    else
      match (path[0], v)
      case (Field(k), JObj(m)) => if k in m then At(m[k], path[1..]) else None
      case (Index(i), JArr(xs)) => if i < |xs| then At(xs[i], path[1..]) else None
      case _ => None
  }

  ghost predicate Secretive(path: seq<Key>) {
    exists j :: 0 <= j < |path| && path[j].Field? && IsSecret(path[j].name)
  }

  /** Stripping removes what lies behind a secret name and nothing else: any other path
      leads to the stripped form of what it led to before. */
  lemma {:induction false} StripKeepsTheRest(v: Json, path: seq<Key>)
    ensures At(Strip(v), path) ==
            if Secretive(path) then None
            else match At(v, path) case None => None case Some(w) => Some(Strip(w))
    decreases |path|
  {
    if path != [] {
      var rest := path[1..];
      assert Secretive(path) <==> (path[0].Field? && IsSecret(path[0].name)) || Secretive(rest) by {
        assert forall j :: 0 <= j < |rest| ==> rest[j] == path[j + 1];
        if Secretive(path) && !(path[0].Field? && IsSecret(path[0].name)) {
          var j :| 0 <= j < |path| && path[j].Field? && IsSecret(path[j].name);
          assert rest[j - 1] == path[j];
        }
        if Secretive(rest) {
          var j :| 0 <= j < |rest| && rest[j].Field? && IsSecret(rest[j].name);
          assert path[j + 1] == rest[j];
        }
      }
      match (path[0], v) {
        case (Field(k), JObj(m)) => if k in m { StripKeepsTheRest(m[k], rest); }
        case (Index(i), JArr(xs)) => if i < |xs| { StripKeepsTheRest(xs[i], rest); }
        case _ =>
      }
    }
  }

  // ---- What counts as secret ----------------------------------------------

  /** The letter itself, or the capital of it. */
  predicate SameLetter(c: char, p: char) {
    c == p || ('a' <= p <= 'z' && c as int + 32 == p as int)
  }

  ghost predicate Spells(name: string, pattern: string, i: nat) {
    i + |pattern| <= |name| && forall j :: 0 <= j < |pattern| ==> SameLetter(name[i + j], pattern[j])
  }

  /** The pattern stands somewhere in the name, in whatever case. */
  ghost predicate Mentions(name: string, pattern: string) {
    exists i: nat :: Spells(name, pattern, i)
  }

  ghost predicate NoCapitals(pattern: string) {
    forall j :: 0 <= j < |pattern| ==> !('A' <= pattern[j] <= 'Z')
  }

  lemma LowerSpells(name: string, pattern: string, i: nat)
    requires NoCapitals(pattern)
    ensures (i <= |name| && pattern <= Lower(name)[i..]) <==> Spells(name, pattern, i)
  {
    var low := Lower(name);
    if i <= |name| && pattern <= low[i..] {
      forall j | 0 <= j < |pattern| ensures SameLetter(name[i + j], pattern[j]) {
        assert pattern[j] == low[i..][j] == LowerChar(name[i + j]);
      }
    }
    if Spells(name, pattern, i) {
      forall j | 0 <= j < |pattern| ensures low[i..][j] == pattern[j] {
        assert SameLetter(name[i + j], pattern[j]);
      }
      assert low[i..][..|pattern|] == pattern;
    }
  }

  lemma ContainsMeansMentions(name: string, pattern: string)
    requires NoCapitals(pattern)
    ensures Contains(Lower(name), pattern) <==> Mentions(name, pattern)
  {
    hide Lower, Spells;
    assert |Lower(name)| == |name| by { LowerKeepsLength(name); }
    if Contains(Lower(name), pattern) {
      var i :| 0 <= i <= |name| && pattern <= Lower(name)[i..];
      LowerSpells(name, pattern, i);
    }
    if Mentions(name, pattern) {
      var i: nat :| Spells(name, pattern, i);
      LowerSpells(name, pattern, i);
    }
  }

  lemma LowerKeepsLength(s: string)
    ensures |Lower(s)| == |s|
  {
  }

  /** A name is secret exactly if it mentions one of five words, in whatever case. */
  lemma SecretNames(name: string)
    ensures IsSecret(name) <==>
            || Mentions(name, "_key") || Mentions(name, "_token") || Mentions(name, "_secret")
            || Mentions(name, "password") || Mentions(name, "authorization")
  {
    hide Contains, Mentions, Lower;
    var ps := SECRET_FIELD_PATTERNS;
    forall i | 0 <= i < |ps| ensures Contains(Lower(name), ps[i]) <==> Mentions(name, ps[i]) {
      ContainsMeansMentions(name, ps[i]);
    }
    assert ps[0] == "_key" && ps[1] == "_token" && ps[2] == "_secret" && ps[3] == "password"
           && ps[4] == "authorization";
  }

  // ---- Sanitized arguments ------------------------------------------------

  lemma SanitizeIsStrip(args: Args)
    ensures JObj(SanitizeArgs(args)) == Strip(JObj(args))
  {
  }

  /** A value without its fields or items. */
  function Head(v: Json): Json {
    match v
    case JObj(_) => JObj(map[])
    case JArr(_) => JArr([])
    case _ => v
  }

  function HeadAt(v: Json, path: seq<Key>): Option<Json> {
    match At(v, path)
    case None => None
    case Some(w) => Some(Head(w))
  }

  /** The two values are alike wherever no secret name leads. */
  ghost predicate AgreeOff(v: Json, w: Json) {
    forall path: seq<Key> :: !Secretive(path) ==> HeadAt(v, path) == HeadAt(w, path)
  }

  lemma HeadOfStrip(v: Json)
    ensures Head(Strip(v)) == Head(v)
  {
  }

  lemma SameStripAgrees(v: Json, w: Json)
    requires Strip(v) == Strip(w)
    ensures AgreeOff(v, w)
  {
    hide At, Head, Strip, Secretive;
    forall path: seq<Key> | !Secretive(path) ensures HeadAt(v, path) == HeadAt(w, path) {
      StripKeepsTheRest(v, path);
      StripKeepsTheRest(w, path);
      if At(v, path).Some? { HeadOfStrip(At(v, path).value); }
      if At(w, path).Some? { HeadOfStrip(At(w, path).value); }
    }
  }

  /** Agreement passes to what lies one step inside. */
  lemma AgreeInside(v: Json, w: Json, key: Key, a: Json, b: Json)
    requires AgreeOff(v, w) && !(key.Field? && IsSecret(key.name))
    requires At(v, [key]) == Some(a) && At(w, [key]) == Some(b)
    ensures AgreeOff(a, b)
  {
    hide Head, IsSecret;
    forall path: seq<Key> | !Secretive(path) ensures HeadAt(a, path) == HeadAt(b, path) {
      var longer := [key] + path;
      assert longer[1..] == path && [key][1..] == [];
      assert !Secretive(longer) by { NotSecretive(key, path); }
      assert At(v, longer) == At(a, path) && At(w, longer) == At(b, path);
      assert HeadAt(v, longer) == HeadAt(w, longer);
    }
  }

  lemma NotSecretive(key: Key, path: seq<Key>)
    requires !(key.Field? && IsSecret(key.name)) && !Secretive(path)
    ensures !Secretive([key] + path)
  {
    hide IsSecret;
    var longer := [key] + path;
    forall j | 0 <= j < |longer| ensures !(longer[j].Field? && IsSecret(longer[j].name)) {
      if j > 0 { assert longer[j] == path[j - 1]; }
    }
  }

  lemma AgreeAt(v: Json, w: Json, key: Key)
    requires AgreeOff(v, w) && !(key.Field? && IsSecret(key.name))
    ensures At(v, [key]).Some? <==> At(w, [key]).Some?
  {
    hide IsSecret, At;
    assert !Secretive([key]);
    assert HeadAt(v, [key]) == HeadAt(w, [key]);
  }

  lemma AgreeAtTop(v: Json, w: Json)
    requires AgreeOff(v, w)
    ensures Head(v) == Head(w)
  {
    hide Head;
    assert !Secretive([]);
    assert HeadAt(v, []) == HeadAt(w, []);
  }

  /** Values that agree off the secrets are stripped to the same value. */
  lemma {:induction false} AgreeingStripsSame(v: Json, w: Json)
    requires AgreeOff(v, w)
    ensures Strip(v) == Strip(w)
    decreases v
  {
    hide AgreeOff, IsSecret;
    AgreeAtTop(v, w);
    match v
    case JObj(m) =>
      forall k | !IsSecret(k) ensures (k in m <==> k in w.fields) && (k in m ==> Strip(m[k]) == Strip(w.fields[k])) {
        AgreeAt(v, w, Field(k));
        if k in m {
          AgreeInside(v, w, Field(k), m[k], w.fields[k]);
          AgreeingStripsSame(m[k], w.fields[k]);
        }
      }
      assert Strip(v).fields == Strip(w).fields;
    case JArr(xs) =>
      forall i: nat ensures (i < |xs| <==> i < |w.items|) && (i < |xs| ==> Strip(xs[i]) == Strip(w.items[i])) {
        AgreeAt(v, w, Index(i));
        if i < |xs| {
          AgreeInside(v, w, Index(i), xs[i], w.items[i]);
          AgreeingStripsSame(xs[i], w.items[i]);
        }
      }
      AgreeAt(v, w, Index(|xs|));
      AgreeAt(v, w, Index(|w.items|));
      assert Strip(v).items == Strip(w).items;
    case _ =>
  }

  /** Sanitizing identifies exactly the arguments that agree on every path without a
      secret name. */
  lemma SanitizesAlikeExactlyWhen(a: Args, b: Args)
    ensures SanitizeArgs(a) == SanitizeArgs(b) <==> AgreeOff(JObj(a), JObj(b))
  {
    hide AgreeOff, Strip, SanitizeArgs;
    SanitizeIsStrip(a);
    SanitizeIsStrip(b);
    if SanitizeArgs(a) == SanitizeArgs(b) { SameStripAgrees(JObj(a), JObj(b)); }
    if AgreeOff(JObj(a), JObj(b)) { AgreeingStripsSame(JObj(a), JObj(b)); }
  }
}
