/** The part of Gson's object model the delete path uses: JsonObject, remove, toString. */
module Gson {
  import opened Outcomes

  datatype JsonValue =
    | JNull
    | JBool(b: bool)
    | JNumber(literal: string)  // kept as the literal text that was parsed
    | JString(s: string)
    | JArray(items: seq<JsonValue>)
    | JObject(members: seq<Member>)

  /** One key/value entry of an object, in insertion order. */
  datatype Member = Member(key: string, value: JsonValue)

  ghost predicate HasKey(ms: seq<Member>, key: string) {
    exists i :: 0 <= i < |ms| && ms[i].key == key
  }

  /** No key occurs twice: the objects Gson builds are linked maps. */
  ghost predicate UniqueKeys(ms: seq<Member>) {
    forall i, j :: 0 <= i < j < |ms| ==> ms[i].key != ms[j].key
  }

  /** The value stored under `key`, null if there is none (JsonObject.get). */
  function Lookup(ms: seq<Member>, key: string): (r: Option<JsonValue>)
    ensures r.Some? <==> HasKey(ms, key)
    ensures r.Some? ==> Member(key, r.value) in ms
  {
    if ms == [] then None
    else if ms[0].key == key then Some(ms[0].value)
    else
      var r := Lookup(ms[1..], key);
      assert forall i :: 0 < i < |ms| ==> ms[i] == ms[1..][i - 1];
      r
  }

  /** The members with every entry for `key` taken out and the rest left in order. */
  function Without(ms: seq<Member>, key: string): (r: seq<Member>)
    ensures !HasKey(r, key)
    ensures forall m :: m in r <==> m in ms && m.key != key
  {
    if ms == [] then []
    else
      var rest := Without(ms[1..], key);
      assert forall m :: m in ms <==> m == ms[0] || m in ms[1..];
      if ms[0].key == key then rest else [ms[0]] + rest
  }

  lemma {:induction false} WithoutConcat(a: seq<Member>, b: seq<Member>, key: string)
    ensures Without(a + b, key) == Without(a, key) + Without(b, key)
  {
    if a == [] {
      assert a + b == b;
    } else {
      assert (a + b)[0] == a[0] && (a + b)[1..] == a[1..] + b;
      WithoutConcat(a[1..], b, key);
    }
  }

  /** Removing a key that is absent changes nothing. */
  lemma {:induction false} WithoutAbsent(ms: seq<Member>, key: string)
    requires !HasKey(ms, key)
    ensures Without(ms, key) == ms
  {
    if ms != [] {
      assert !HasKey(ms[1..], key) by {
        forall i | 0 <= i < |ms[1..]| ensures ms[1..][i].key != key {
          assert ms[1..][i] == ms[i + 1];
        }
      }
      WithoutAbsent(ms[1..], key);
    }
  }

  /** Removing twice is removing once. */
  lemma WithoutIdempotent(ms: seq<Member>, key: string)
    ensures Without(Without(ms, key), key) == Without(ms, key)
  {
    WithoutAbsent(Without(ms, key), key);
  }

  /**
   * In an object whose keys are unique, removing `key` takes out exactly its one
   * entry: what was before it and what was after it stay, in order.
   */
  lemma WithoutUnique(pre: seq<Member>, v: JsonValue, post: seq<Member>, key: string)
    requires UniqueKeys(pre + [Member(key, v)] + post)
    ensures Without(pre + [Member(key, v)] + post, key) == pre + post
  {
    var ms := pre + [Member(key, v)] + post;
    assert !HasKey(pre, key) by {
      forall i | 0 <= i < |pre| ensures pre[i].key != key {
        assert ms[i] == pre[i] && ms[|pre|].key == key;
      }
    }
    assert !HasKey(post, key) by {
      forall i | 0 <= i < |post| ensures post[i].key != key {
        assert ms[|pre| + 1 + i] == post[i] && ms[|pre|].key == key;
      }
    }
    var x := Member(key, v);
    assert Without([x], key) == [] by {
      assert [x][1..] == [];
    }
    calc {
      Without(ms, key);
      { WithoutConcat(pre + [x], post, key); }
      Without(pre + [x], key) + Without(post, key);
      { WithoutConcat(pre, [x], key); }
      Without(pre, key) + Without([x], key) + Without(post, key);
      { WithoutAbsent(pre, key); WithoutAbsent(post, key); }
      pre + [] + post;
    }
  }

  /** Removal keeps every other key's value. */
  lemma {:induction false} WithoutKeepsOtherKeys(ms: seq<Member>, key: string, other: string)
    requires other != key
    ensures Lookup(Without(ms, key), other) == Lookup(ms, other)
  {
    if ms != [] {
      WithoutKeepsOtherKeys(ms[1..], key, other);
      if ms[0].key != key {
        assert ([ms[0]] + Without(ms[1..], key))[1..] == Without(ms[1..], key);
      }
    }
  }

  /** A mutable Gson JsonObject: its entries in insertion order. */
  class JsonObject {
    var members: seq<Member>

    /** `new JsonObject()`: no entries. */
    constructor ()
      ensures members == []
    {
      members := [];
    }

    /** The object the parser built from the given entries. */
    constructor FromMembers(ms: seq<Member>)
      ensures members == ms
    {
      members := ms;
    }

    /** JsonObject.remove(key): drops the entry for `key` and returns its old value, null if none. */
    method Remove(key: string) returns (removed: Option<JsonValue>)
      modifies this
      ensures removed == Lookup(old(members), key)
      ensures members == Without(old(members), key)
    {
      removed := Lookup(members, key);
      members := Without(members, key);
    }
  }

  // Serialisation, as JsonElement.toString writes it (compact, not HTML-safe).

  function HexDigit(d: nat): char
    requires d < 16
  {
    if d < 10 then ('0' as int + d) as char else ('a' as int + d - 10) as char
  }

  /** How the JSON writer writes one character inside a string literal. */
  function EscapeChar(c: char): (r: string)
    ensures PlainChar(c) ==> r == [c]
    ensures !PlainChar(c) ==> 2 <= |r| <= 6 && r[0] == '\\'
    ensures forall i :: 0 <= i < |r| && r[i] == '"' ==> i > 0 && r[i - 1] == '\\'
  {
    if c == '"' then "\\\""
    else if c == '\\' then "\\\\"
    else if c == '\t' then "\\t"
    else if c == '\U{8}' then "\\b"
    else if c == '\n' then "\\n"
    else if c == '\r' then "\\r"
    else if c == '\U{C}' then "\\f"
    else if c as int < 0x20 then "\\u00" + [HexDigit(c as int / 16), HexDigit(c as int % 16)]
    else if c == '\U{2028}' then "\\u2028"
    else if c == '\U{2029}' then "\\u2029"
    else [c]
  }

  /** The body of a string literal: every character escaped, so no quote in it is left bare. */
  function Escape(s: string): (r: string)
    ensures |r| >= |s|
    ensures forall i :: 0 <= i < |r| && r[i] == '"' ==> i > 0 && r[i - 1] == '\\'
  {
    if s == [] then ""
    else
      var head, rest := EscapeChar(s[0]), Escape(s[1..]);
      assert forall i :: |head| <= i < |head + rest| ==> (head + rest)[i] == rest[i - |head|];
      head + rest
  }

  /** A string literal: the escaped text between two quotes. */
  function Quote(s: string): (r: string)
    ensures |r| >= |s| + 2 && r[0] == '"' && r[|r| - 1] == '"'
  {
    "\"" + Escape(s) + "\""
  }

  /** JsonElement.toString(). */
  function ToJson(v: JsonValue): (r: string)
    ensures v.JNull? ==> r == "null"
    ensures v.JBool? ==> r == if v.b then "true" else "false"
    ensures v.JString? ==> r == Quote(v.s)
    ensures v.JArray? ==> |r| >= 2 && r[0] == '[' && r[|r| - 1] == ']'
    ensures v.JObject? ==> |r| >= 2 && r[0] == '{' && r[|r| - 1] == '}'
    decreases v
  {
    match v
    case JNull => "null"
    case JBool(b) => if b then "true" else "false"
    case JNumber(t) => t
    case JString(s) => Quote(s)
    case JArray(items) => "[" + ItemsJson(items) + "]"
    case JObject(ms) => "{" + MembersJson(ms) + "}"
  }

  /** Array elements, comma-separated. */
  function ItemsJson(items: seq<JsonValue>): (r: string)
    ensures items == [] ==> r == ""
    decreases items
  {
    if items == [] then ""
    else if |items| == 1 then ToJson(items[0])
    else ToJson(items[0]) + "," + ItemsJson(items[1..])
  }

  /** Object entries as `"key":value`, comma-separated, in order: empty or starting with the first quoted key. */
  function MembersJson(ms: seq<Member>): (r: string)
    ensures ms == [] <==> r == ""
    ensures ms != [] ==> |Quote(ms[0].key)| <= |r| && r[..|Quote(ms[0].key)|] == Quote(ms[0].key)
    decreases ms
  {
    if ms == [] then ""
    else
      var q := Quote(ms[0].key);
      if |ms| == 1 then
        assert (q + ":" + ToJson(ms[0].value))[..|q|] == q;
        q + ":" + ToJson(ms[0].value)
      else
        assert (q + ":" + ToJson(ms[0].value) + "," + MembersJson(ms[1..]))[..|q|] == q;
        q + ":" + ToJson(ms[0].value) + "," + MembersJson(ms[1..])
  }

  /** A character the writer copies as it is. */
  predicate PlainChar(c: char) {
    c as int >= 0x20 && c != '"' && c != '\\' && c != '\U{2028}' && c != '\U{2029}'
  }

  /** Text without quotes, backslashes or control characters is written unchanged. */
  lemma {:induction false} EscapePlain(s: string)
    requires forall i :: 0 <= i < |s| ==> PlainChar(s[i])
    ensures Escape(s) == s
  {
    if s != [] {
      EscapePlain(s[1..]);
    }
  }

  /** The empty object prints as `{}`. */
  lemma EmptyObjectToJson()
    ensures ToJson(JObject([])) == "{}"
  {
  }
}
