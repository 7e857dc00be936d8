/**
 * The Python values the handler inspects: the parsed JSON request body, the
 * fields of each chat message, and whatever the agent or `eval` hands back.
 */
module PyValues {

  /** A JSON-shaped Python value; mapping keys are strings, as JSON keys are. */
  datatype Value =
    | VNone
    | VBool(b: bool)
    | VInt(i: int)
    | VStr(s: string)
    | VList(items: seq<Value>)
    | VDict(entries: map<string, Value>)

  /** Python truthiness, as `if not x` tests it. */
  predicate Truthy(v: Value) {
    match v
    case VNone => false
    case VBool(b) => b
    case VInt(i) => i != 0
    case VStr(s) => s != []
    case VList(items) => items != []
    case VDict(entries) => entries != map[]
  }

  /** The name Python's `type(v).__name__` gives, as it appears in error messages. */
  function TypeName(v: Value): string {
    match v
    case VNone => "NoneType"
    case VBool(_) => "bool"
    case VInt(_) => "int"
    case VStr(_) => "str"
    case VList(_) => "list"
    case VDict(_) => "dict"
  }

  /** `d.get(key, default)` on a dict. */
  function Get(entries: map<string, Value>, key: string, default: Value): Value {
    if key in entries then entries[key] else default
  }

  /** `str(v)`: a string is its own text; any other value is rendered by `show` (Python's repr). */
  function Text(v: Value, show: Value -> string): string {
    if v.VStr? then v.s else show(v)
  }

  /** Python's `sub in s` on two strings, scanning `s` from the left. */
  predicate IsSubstring(sub: string, s: string)
    decreases |s|
  {
    if |sub| == 0 then true
    else if |s| < |sub| then false
    else s[..|sub|] == sub || IsSubstring(sub, s[1..])
  }

  /** `sub` occurs in `s` starting at offset `i`. */
  predicate OccursAt(sub: string, s: string, i: int) {
    0 <= i <= |s| - |sub| && s[i..i + |sub|] == sub
  }

  /** The scan finds `sub` exactly when `sub` occurs at some offset of `s`. */
  lemma {:induction false} IsSubstringIff(sub: string, s: string)
    ensures IsSubstring(sub, s) <==> exists i :: OccursAt(sub, s, i)
    decreases |s|
  {
    if |sub| == 0 {
      assert OccursAt(sub, s, 0);
    } else if |s| < |sub| {
    } else if s[..|sub|] == sub {
      assert OccursAt(sub, s, 0);
    } else {
      IsSubstringIff(sub, s[1..]);
      if IsSubstring(sub, s[1..]) {
        var i :| OccursAt(sub, s[1..], i);
        assert s[1..][i..i + |sub|] == s[i + 1..i + 1 + |sub|];
        assert OccursAt(sub, s, i + 1);
      }
      if exists i :: OccursAt(sub, s, i) {
        var i :| OccursAt(sub, s, i);
        assert i != 0;
        assert s[1..][i - 1..i - 1 + |sub|] == s[i..i + |sub|];
        assert OccursAt(sub, s[1..], i - 1);
      }
    }
  }
}
