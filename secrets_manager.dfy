/**
 * Selection of the secret value returned by GetSecret once AWS Secrets
 * Manager has answered: the argument checks, the "string" mode with its
 * binary fallback, the "json" mode with alias-mapped field extraction or the
 * password / Password lookup, and the rejection of unknown modes.
 *
 * The AWS call and the JSON parse are inputs: `secretString` and
 * `secretBinary` are the two optional payloads of the answer, and `secretMap`
 * is the decoded JSON object (None when decoding failed). Go's map iteration
 * order over `fields` is the input `order`.
 */
module SecretsManager {
  import opened Wrappers

  /** A decoded JSON value: a string, or any other value already rendered as text. */
  datatype JVal = JStr(s: string) | JOther(rendered: string)

  datatype SecretError =
    | BadParameter(message: string)
    | InvalidMode(mode: string)
    | KeyNotFound(key: string)
    | JsonParseFailed

  const RegionRequired := "region is required"
  const SecretIdRequired := "secret_id is required"
  const NoStringOrBinary := "secret has no string or binary value"
  const NotAStringForJson := "secret value is not a string (required for JSON mode)"
  const NoPasswordField := "no password field found in secret JSON and no fields specified"

  /** The text of an extracted value. */
  function Render(v: JVal): (text: string)
  {
    match v
    case JStr(s) => s
    case JOther(r) => r
  }

  /** The name an extracted field is stored under: its alias, or its key when the alias is empty. */
  function NameOf(fields: map<string, string>, key: string): (name: string)
    requires key in fields
  {
    if fields[key] != "" then fields[key] else key
  }

  /** `order` lists every key of `fields` exactly once, as one run of Go's map iteration does. */
  ghost predicate Enumerates(order: seq<string>, fields: map<string, string>)
  {
    && (forall k :: k in fields <==> k in order)
    && (forall i, j :: 0 <= i < j < |order| ==> order[i] != order[j])
  }

  /** Every key in `keys` is a field and is present in the secret. */
  ghost predicate AllKnown(secretMap: map<string, JVal>, fields: map<string, string>, keys: seq<string>)
  {
    forall j :: 0 <= j < |keys| ==> keys[j] in fields && keys[j] in secretMap
  }

  /** The index of the first key absent from the secret, or |keys| when all are present. */
  function FirstMissingIndex(secretMap: map<string, JVal>, keys: seq<string>): (m: nat)
    ensures m <= |keys|
    ensures forall j :: 0 <= j < m ==> keys[j] in secretMap
    ensures m < |keys| ==> keys[m] !in secretMap
  {
    if keys == [] then 0
    else if keys[0] !in secretMap then 0
    else 1 + FirstMissingIndex(secretMap, keys[1..])
  }

  /** The `extracted` map after storing the fields `keys` in order: later writes to a name win. */
  function Extracted(secretMap: map<string, JVal>, fields: map<string, string>, keys: seq<string>): (extracted: map<string, string>)
    requires AllKnown(secretMap, fields, keys)
  {
    if keys == [] then map[]
    else
      var k := keys[|keys| - 1];
      Extracted(secretMap, fields, keys[..|keys| - 1])[NameOf(fields, k) := Render(secretMap[k])]
  }

  /** Index `j` holds the last key of `keys` that is stored under the name `n`. */
  ghost predicate WrittenLast(fields: map<string, string>, keys: seq<string>, j: int, n: string)
  {
    && 0 <= j < |keys|
    && keys[j] in fields
    && NameOf(fields, keys[j]) == n
    && forall j' :: j < j' < |keys| && keys[j'] in fields ==> NameOf(fields, keys[j']) != n
  }

  /** A name is present after the extraction loop exactly when some field is stored under it. */
  lemma {:induction false} ExtractedNames(secretMap: map<string, JVal>, fields: map<string, string>, keys: seq<string>, n: string)
    requires AllKnown(secretMap, fields, keys)
    ensures n in Extracted(secretMap, fields, keys) <==> exists j :: 0 <= j < |keys| && NameOf(fields, keys[j]) == n
  {
    if keys != [] {
      var last := |keys| - 1;
      var prefix := keys[..last];
      ExtractedNames(secretMap, fields, prefix, n);
      if NameOf(fields, keys[last]) != n {
        if j :| 0 <= j < |keys| && NameOf(fields, keys[j]) == n {
          assert j < last && prefix[j] == keys[j];
        }
        if j :| 0 <= j < |prefix| && NameOf(fields, prefix[j]) == n {
          assert keys[j] == prefix[j];
        }
      }
    }
  }

  /** Under a present name, the extraction loop leaves the value of the last field stored under it. */
  lemma {:induction false} ExtractedLastWriter(secretMap: map<string, JVal>, fields: map<string, string>, keys: seq<string>, n: string)
    requires AllKnown(secretMap, fields, keys)
    requires n in Extracted(secretMap, fields, keys)
    ensures exists j :: WrittenLast(fields, keys, j, n) && Extracted(secretMap, fields, keys)[n] == Render(secretMap[keys[j]])
  {
    var last := |keys| - 1;
    if NameOf(fields, keys[last]) == n {
      assert WrittenLast(fields, keys, last, n);
    } else {
      var prefix := keys[..last];
      assert AllKnown(secretMap, fields, prefix) by {
        assert forall j :: 0 <= j < last ==> prefix[j] == keys[j];
      }
      ExtractedLastWriter(secretMap, fields, prefix, n);
      var j :| WrittenLast(fields, prefix, j, n) && Extracted(secretMap, fields, prefix)[n] == Render(secretMap[prefix[j]]);
      assert keys[j] == prefix[j];
      forall j' | j < j' < |keys| && keys[j'] in fields ensures NameOf(fields, keys[j']) != n {
        if j' < last {
          assert keys[j'] == prefix[j'];
        }
      }
      assert WrittenLast(fields, keys, j, n);
    }
  }

  /** When a single key is stored under its name, that name holds the key's value. */
  lemma ExtractedUniqueName(secretMap: map<string, JVal>, fields: map<string, string>, keys: seq<string>, i: int)
    requires AllKnown(secretMap, fields, keys) && 0 <= i < |keys|
    requires forall j :: 0 <= j < |keys| && j != i ==> NameOf(fields, keys[j]) != NameOf(fields, keys[i])
    ensures NameOf(fields, keys[i]) in Extracted(secretMap, fields, keys)
    ensures Extracted(secretMap, fields, keys)[NameOf(fields, keys[i])] == Render(secretMap[keys[i]])
  {
    var n := NameOf(fields, keys[i]);
    ExtractedNames(secretMap, fields, keys, n);
    ExtractedLastWriter(secretMap, fields, keys, n);
    var j :| WrittenLast(fields, keys, j, n) && Extracted(secretMap, fields, keys)[n] == Render(secretMap[keys[j]]);
    assert j == i;
  }

  /**
   * The extraction loop: walks the fields in iteration order, stops at the
   * first key the secret lacks, and otherwise stores each value under the
   * field's alias or key.
   */
  method ExtractFields(secretMap: map<string, JVal>, fields: map<string, string>, order: seq<string>)
    returns (r: Result<map<string, string>, SecretError>)
    requires forall j :: 0 <= j < |order| ==> order[j] in fields
    ensures var m := FirstMissingIndex(secretMap, order);
      if m < |order| then r == Failure(KeyNotFound(order[m]))
      else AllKnown(secretMap, fields, order) && r == Success(Extracted(secretMap, fields, order))
  {
    var extracted: map<string, string> := map[];
    var i := 0;
    while i < |order|
      invariant 0 <= i <= |order|
      invariant AllKnown(secretMap, fields, order[..i])
      invariant extracted == Extracted(secretMap, fields, order[..i])
    {
      var key := order[i];
      var alias := fields[key];
      if key in secretMap {
        var strVal := Render(secretMap[key]);
        if alias != "" {
          extracted := extracted[alias := strVal];
        } else {
          extracted := extracted[key := strVal];
        }
      } else {
        assert forall j :: 0 <= j < i ==> order[..i][j] == order[j];
        ExtractFieldsMissing(secretMap, order, i);
        return Failure(KeyNotFound(key));
      }
      assert order[..i + 1][..i] == order[..i];
      i := i + 1;
    }
    assert order[..i] == order;
    ExtractFieldsComplete(secretMap, order);
    return Success(extracted);
  }

  /** The loop stops at the first missing key. */
  lemma ExtractFieldsMissing(secretMap: map<string, JVal>, order: seq<string>, i: int)
    requires 0 <= i < |order| && order[i] !in secretMap
    requires forall j :: 0 <= j < i ==> order[j] in secretMap
    ensures FirstMissingIndex(secretMap, order) == i
  {
  }

  /** A loop that ran to the end saw no missing key. */
  lemma ExtractFieldsComplete(secretMap: map<string, JVal>, order: seq<string>)
    requires forall j :: 0 <= j < |order| ==> order[j] in secretMap
    ensures FirstMissingIndex(secretMap, order) == |order|
  {
  }

  /** Some value of a non-empty map: the value Go's map iteration happens to yield first. */
  ghost function AnyValue(m: map<string, string>): (v: string)
    requires |m| > 0
    ensures v in m.Values
  {
    assert m.Keys != {} by { assert |m.Keys| == |m|; }
    var k :| k in m.Keys; m[k]
  }

  /**
   * The password lookup used when no fields are given: `password` if it is a
   * string, otherwise `Password` if it is a string, otherwise an error.
   */
  function PasswordLookup(secretMap: map<string, JVal>): (r: Result<string, SecretError>)
    ensures "password" in secretMap && secretMap["password"].JStr? ==> r == Success(secretMap["password"].s)
    ensures r.Success? ==>
      || ("password" in secretMap && secretMap["password"] == JStr(r.value))
      || ("Password" in secretMap && secretMap["Password"] == JStr(r.value))
    ensures r.Failure? <==>
      && !("password" in secretMap && secretMap["password"].JStr?)
      && !("Password" in secretMap && secretMap["Password"].JStr?)
    ensures r.Failure? ==> r.error == BadParameter(NoPasswordField)
  {
    if "password" in secretMap && secretMap["password"].JStr? then Success(secretMap["password"].s)
    else if "Password" in secretMap && secretMap["Password"].JStr? then Success(secretMap["Password"].s)
    else Failure(BadParameter(NoPasswordField))
  }

  /** JSON mode once the secret string has been decoded into `secretMap`. */
  ghost function JsonSelect(secretMap: map<string, JVal>, fields: map<string, string>, order: seq<string>)
    : (r: Result<string, SecretError>)
    requires Enumerates(order, fields)
  {
    if |fields| > 0 then
      var m := FirstMissingIndex(secretMap, order);
      if m < |order| then Failure(KeyNotFound(order[m]))
      else
        var extracted := Extracted(secretMap, fields, order);
        if "password" in extracted then Success(extracted["password"])
        else if |extracted| > 0 then Success(AnyValue(extracted))
        else PasswordLookup(secretMap)
    else PasswordLookup(secretMap)
  }

  /** The secret GetSecret returns for the given arguments and AWS answer. */
  ghost function GetSecret(
    region: string, secretID: string, mode: string,
    fields: map<string, string>, order: seq<string>,
    secretString: Option<string>, secretBinary: Option<string>,
    secretMap: Option<map<string, JVal>>): (r: Result<string, SecretError>)
    requires Enumerates(order, fields)
    ensures region == "" ==> r == Failure(BadParameter(RegionRequired))
    ensures region != "" && secretID == "" ==> r == Failure(BadParameter(SecretIdRequired))
    ensures region != "" && secretID != "" && mode !in {"string", "", "json"} ==> r == Failure(InvalidMode(mode))
    ensures region != "" && secretID != "" && (mode == "string" || mode == "") ==>
      && (secretString.Some? ==> r == Success(secretString.value))
      && (secretString.None? && secretBinary.Some? ==> r == Success(secretBinary.value))
      && (r.Failure? <==> secretString.None? && secretBinary.None?)
    ensures region != "" && secretID != "" && mode == "json" && secretString.None? ==>
      r == Failure(BadParameter(NotAStringForJson))
    ensures r.Success? && mode != "string" && mode != "" ==>
      mode == "json" && secretString.Some? && secretMap.Some?
  {
    if region == "" then Failure(BadParameter(RegionRequired))
    else if secretID == "" then Failure(BadParameter(SecretIdRequired))
    else if mode == "string" || mode == "" then
      if secretString.Some? then Success(secretString.value)
      else if secretBinary.Some? then Success(secretBinary.value)
      else Failure(BadParameter(NoStringOrBinary))
    else if mode == "json" then
      if secretString.None? then Failure(BadParameter(NotAStringForJson))
      else if secretMap.None? then Failure(JsonParseFailed)
      else JsonSelect(secretMap.value, fields, order)
    else Failure(InvalidMode(mode))
  }

  /** The arguments and the secret payload that reach JSON field selection. */
  ghost predicate ReachesJson(region: string, secretID: string, mode: string, secretString: Option<string>)
  {
    region != "" && secretID != "" && mode == "json" && secretString.Some?
  }

  /** In JSON mode without a secret string, neither the fields nor the decoded map are consulted. */
  lemma JsonWithoutStringIgnoresMap(
    region: string, secretID: string, secretBinary: Option<string>,
    fields1: map<string, string>, order1: seq<string>, secretMap1: Option<map<string, JVal>>,
    fields2: map<string, string>, order2: seq<string>, secretMap2: Option<map<string, JVal>>)
    requires region != "" && secretID != ""
    requires Enumerates(order1, fields1) && Enumerates(order2, fields2)
    ensures GetSecret(region, secretID, "json", fields1, order1, None, secretBinary, secretMap1)
         == GetSecret(region, secretID, "json", fields2, order2, None, secretBinary, secretMap2)
  {
  }

  /** With fields given, a field absent from the secret yields NotFound for some absent field. */
  lemma MissingFieldIsNotFound(
    region: string, secretID: string, mode: string,
    fields: map<string, string>, order: seq<string>,
    secretString: Option<string>, secretBinary: Option<string>,
    secretMap: map<string, JVal>, key: string)
    requires Enumerates(order, fields) && ReachesJson(region, secretID, mode, secretString)
    requires key in fields && key !in secretMap
    ensures var r := GetSecret(region, secretID, mode, fields, order, secretString, secretBinary, Some(secretMap));
      r.Failure? && r.error.KeyNotFound? && r.error.key in fields && r.error.key !in secretMap
  {
    var j :| 0 <= j < |order| && order[j] == key;
    assert |fields| > 0 by { assert key in fields.Keys; }
    var m := FirstMissingIndex(secretMap, order);
    assert m < |order|;
  }

  /**
   * With fields given and all present, the call succeeds with one of the
   * extracted values (the value of a field that no later field overwrote); it
   * never falls through to the password lookup.
   */
  lemma FieldsAlwaysSelectAField(
    region: string, secretID: string, mode: string,
    fields: map<string, string>, order: seq<string>,
    secretString: Option<string>, secretBinary: Option<string>,
    secretMap: map<string, JVal>)
    requires Enumerates(order, fields) && ReachesJson(region, secretID, mode, secretString)
    requires |fields| > 0 && forall k :: k in fields ==> k in secretMap
    ensures var r := GetSecret(region, secretID, mode, fields, order, secretString, secretBinary, Some(secretMap));
      r.Success? && exists j :: 0 <= j < |order| && r.value == Render(secretMap[order[j]])
    ensures var r := GetSecret(region, secretID, mode, fields, order, secretString, secretBinary, Some(secretMap));
      r.Success? && r.value in Extracted(secretMap, fields, order).Values
  {
    JsonSelectPicksField(secretMap, fields, order);
  }

  /** JSON field selection succeeds with one of the extracted values once all fields are present. */
  lemma JsonSelectPicksField(secretMap: map<string, JVal>, fields: map<string, string>, order: seq<string>)
    requires Enumerates(order, fields)
    requires |fields| > 0 && forall k :: k in fields ==> k in secretMap
    ensures var r := JsonSelect(secretMap, fields, order);
      r.Success? && exists j :: 0 <= j < |order| && r.value == Render(secretMap[order[j]])
    ensures var r := JsonSelect(secretMap, fields, order);
      r.Success? && r.value in Extracted(secretMap, fields, order).Values
  {
    assert AllKnown(secretMap, fields, order);
    ExtractFieldsComplete(secretMap, order);
    assert fields.Keys != {} by { assert |fields.Keys| == |fields|; }
    var k :| k in fields.Keys;
    var extracted := Extracted(secretMap, fields, order);
    ExtractedNames(secretMap, fields, order, NameOf(fields, order[0]));
    assert |extracted| > 0 by { assert NameOf(fields, order[0]) in extracted.Keys; }
    var r := JsonSelect(secretMap, fields, order);
    assert r.value in extracted.Values;
    var n :| n in extracted && extracted[n] == r.value;
    ExtractedLastWriter(secretMap, fields, order, n);
    var j :| WrittenLast(fields, order, j, n) && extracted[n] == Render(secretMap[order[j]]);
  }

  /**
   * When some field is stored under the name "password", that name's value is
   * returned: the value of the last such field in iteration order.
   */
  lemma PasswordNameIsReturned(
    region: string, secretID: string, mode: string,
    fields: map<string, string>, order: seq<string>,
    secretString: Option<string>, secretBinary: Option<string>,
    secretMap: map<string, JVal>, key: string)
    requires Enumerates(order, fields) && ReachesJson(region, secretID, mode, secretString)
    requires forall k :: k in fields ==> k in secretMap
    requires key in fields && NameOf(fields, key) == "password"
    ensures exists j ::
      && WrittenLast(fields, order, j, "password")
      && GetSecret(region, secretID, mode, fields, order, secretString, secretBinary, Some(secretMap))
         == Success(Render(secretMap[order[j]]))
  {
    assert AllKnown(secretMap, fields, order);
    ExtractFieldsComplete(secretMap, order);
    assert |fields| > 0 by { assert key in fields.Keys; }
    var i :| 0 <= i < |order| && order[i] == key;
    ExtractedNames(secretMap, fields, order, "password");
    ExtractedLastWriter(secretMap, fields, order, "password");
  }

  /** A field aliased (or named) "password" that no other field shares is the value returned. */
  lemma UniquePasswordFieldIsReturned(
    region: string, secretID: string, mode: string,
    fields: map<string, string>, order: seq<string>,
    secretString: Option<string>, secretBinary: Option<string>,
    secretMap: map<string, JVal>, key: string)
    requires Enumerates(order, fields) && ReachesJson(region, secretID, mode, secretString)
    requires forall k :: k in fields ==> k in secretMap
    requires key in fields && NameOf(fields, key) == "password"
    requires forall k :: k in fields && k != key ==> NameOf(fields, k) != "password"
    ensures GetSecret(region, secretID, mode, fields, order, secretString, secretBinary, Some(secretMap))
         == Success(Render(secretMap[key]))
  {
    PasswordNameIsReturned(region, secretID, mode, fields, order, secretString, secretBinary, secretMap, key);
    var j :| WrittenLast(fields, order, j, "password") &&
      GetSecret(region, secretID, mode, fields, order, secretString, secretBinary, Some(secretMap))
        == Success(Render(secretMap[order[j]]));
    assert order[j] == key;
  }

  /** Without fields, JSON mode returns the password lookup of the decoded secret. */
  lemma NoFieldsUsesPasswordLookup(
    region: string, secretID: string, mode: string,
    fields: map<string, string>, order: seq<string>,
    secretString: Option<string>, secretBinary: Option<string>,
    secretMap: map<string, JVal>)
    requires Enumerates(order, fields) && ReachesJson(region, secretID, mode, secretString)
    requires |fields| == 0
    ensures GetSecret(region, secretID, mode, fields, order, secretString, secretBinary, Some(secretMap))
         == PasswordLookup(secretMap)
  {
  }
}
