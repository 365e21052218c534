/** PHP values as the client sees them: what `json_decode($text, true)` hands
    back, what `json_encode` accepts, and the array reads the client performs. */
module Values {

  datatype Option<+T> = None | Some(value: T) {
    function GetOr(default: T): T {
      match this
      case Some(v) => v
      case None => default
    }
  }

  /** An octet; PHP strings that are passed to base64_encode are octet strings. */
  type byte = x: int | 0 <= x < 256

  /** A key of a PHP array. */
  datatype Key = IntKey(i: int) | StrKey(s: string)

  /** A PHP value: null, a boolean, an integer, a string, or an ordered array
      (PHP uses one array type for JSON lists and JSON objects alike). */
  datatype Value =
    | Null
    | Bool(b: bool)
    | Int(i: int)
    | Str(s: string)
    | Arr(entries: seq<(Key, Value)>)

  /** A PHP array given to the client as a request payload. */
  type Payload = seq<(Key, Value)>

  /** The two JSON library calls the client makes, which are not part of this
      model. `encode(v)` is `json_encode(v)`, with `None` standing for the
      `false` it returns on failure; `parse(text)` is the JSON parser behind
      `json_decode($text, true)`, with `None` standing for a syntax error. */
  datatype JsonCodec = JsonCodec(encode: Value -> Option<string>, parse: string -> Option<Value>)

  /** `json_decode($text, true)`: the parsed value, or null when the text is
      not valid JSON. PHP does not distinguish the two nulls. */
  function JsonDecode(json: JsonCodec, text: string): (v: Value)
    ensures json.parse(text).Some? ==> v == json.parse(text).value
    ensures json.parse(text).None? ==> v == Null
  {
    json.parse(text).GetOr(Null)
  }

  /** PHP's conversion of a string to bool: only "" and "0" are false. */
  function Truthy(s: string): (t: bool)
    ensures s == "" ==> !t
    ensures |s| == 1 ==> (t <==> s[0] != '0')
    ensures |s| >= 2 ==> t
  {
    s != "" && s != "0"
  }

  /** The value stored under key `k` in `entries`, or null when there is none.
      A PHP array never holds a key twice; the type does not rule that out,
      and on such a sequence the first entry with the key is the one read. */
  function Find(entries: seq<(Key, Value)>, k: Key): (r: Value)
    ensures r != Null ==> exists i | 0 <= i < |entries| :: entries[i] == (k, r)
    decreases |entries|
  {
    if entries == [] then Null
    else if entries[0].0 == k then entries[0].1
    else Find(entries[1..], k)
  }

  /** `$v[$k]` read with PHP's lenient semantics: null when `v` is not an
      array or has no entry under `k`. */
  function Lookup(v: Value, k: Key): (r: Value)
    ensures !v.Arr? ==> r == Null
    ensures r != Null ==> v.Arr? && exists i | 0 <= i < |v.entries| :: v.entries[i] == (k, r)
  {
    if v.Arr? then Find(v.entries, k) else Null
  }

  /** Find yields the value of the first entry carrying the key. */
  lemma {:induction false} FindFirst(entries: seq<(Key, Value)>, k: Key, i: nat)
    requires i < |entries| && entries[i].0 == k
    requires forall j | 0 <= j < i :: entries[j].0 != k
    ensures Find(entries, k) == entries[i].1
    decreases i
  {
    if i > 0 {
      FindFirst(entries[1..], k, i - 1);
    }
  }
}
