/** The slice of the JavaScript runtime that the provider-selection module
    relies on: a snapshot of `process.env`, the truthiness of an optional
    string, the `a || b` defaulting idiom and `String.prototype.toLowerCase`
    restricted to ASCII. */
module JsEnv {

  datatype Option<+T> = None | Some(value: T)

  /** A snapshot of `process.env`: variable name to value. A name that is not
      a key is `undefined` in JavaScript. */
  type Env = map<string, string>

  /** `process.env[name]`. */
  function Lookup(env: Env, name: string): (v: Option<string>)
    ensures v.Some? <==> name in env
    ensures v.Some? ==> v.value == env[name]
  {
    if name in env then Some(env[name]) else None
  }

  /** JavaScript truthiness of a `string | undefined`: only `undefined` and the
      empty string are falsy. */
  predicate Truthy(v: Option<string>) {
    v.Some? && v.value != ""
  }

  /** `v || fallback` for a `string | undefined`. */
  function OrElse(v: Option<string>, fallback: string): (r: string)
    ensures Truthy(v) ==> Some(r) == v
    ensures !Truthy(v) ==> r == fallback
    ensures r == fallback || Some(r) == v
    ensures fallback != "" ==> r != ""
  {
    if Truthy(v) then v.value else fallback
  }

  predicate IsUpperAscii(c: char) {
    'A' <= c <= 'Z'
  }

  /** `toLowerCase` on one character, for the ASCII letters only. */
  function LowerChar(c: char): (d: char)
    ensures !IsUpperAscii(d)
    ensures IsUpperAscii(c) ==> d as int - c as int == 'a' as int - 'A' as int
    ensures !IsUpperAscii(c) ==> d == c
  {
    if IsUpperAscii(c) then (c as int + ('a' as int - 'A' as int)) as char else c
  }

  /** No upper-case ASCII letter occurs in `s`. */
  predicate IsLowerAscii(s: string) {
    forall i :: 0 <= i < |s| ==> !IsUpperAscii(s[i])
  }

  /** `s.toLowerCase()`, modelled on ASCII: each character is lowered on its own
      and nothing else about the string changes. */
  function ToLowerAscii(s: string): (r: string)
    ensures |r| == |s|
    ensures forall i :: 0 <= i < |s| ==> r[i] == LowerChar(s[i])
    ensures IsLowerAscii(r)
  {
    if s == [] then [] else [LowerChar(s[0])] + ToLowerAscii(s[1..])
  }

  /** A string with no upper-case letter is its own lowercase. */
  lemma {:induction false} LowerOfLowerIsIdentity(s: string)
    requires IsLowerAscii(s)
    ensures ToLowerAscii(s) == s
  {
    if s != [] {
      assert IsLowerAscii(s[1..]) by {
        forall i | 0 <= i < |s[1..]| ensures !IsUpperAscii(s[1..][i]) {
          assert s[1..][i] == s[i + 1];
        }
      }
      LowerOfLowerIsIdentity(s[1..]);
    }
  }

  /** Lowering twice is lowering once. */
  lemma ToLowerIdempotent(s: string)
    ensures ToLowerAscii(ToLowerAscii(s)) == ToLowerAscii(s)
  {
    LowerOfLowerIsIdentity(ToLowerAscii(s));
  }
}
