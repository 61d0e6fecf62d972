/** Requests for attenuation on the wire. */
module ScopeCodec {
  import opened Wrappers
  import opened Contract
  import opened Bytes
  import opened Values
  import opened ValueCodec
  import SchemaCodec
  import Schemas
  import opened Prepared

  // ----- ordered sets of texts

  predicate StrictlyAscending(texts: seq<seq<byte>>) { forall i | 0 <= i < |texts| - 1 :: Less(texts[i], texts[i + 1]) }

  /** Puts a text where it belongs. */
  function Insert(text: seq<byte>, texts: seq<seq<byte>>): (r: seq<seq<byte>>)
    ensures forall t :: t in r <==> t == text || t in texts
  {
    if texts == [] || Less(text, texts[0]) then [text] + texts
    else if text == texts[0] then texts
    else [texts[0]] + Insert(text, texts[1..])
  }

  lemma {:induction false} TailAscends(texts: seq<seq<byte>>)
    requires StrictlyAscending(texts) && texts != []
    ensures StrictlyAscending(texts[1..])
  {
    forall i | 0 <= i < |texts[1..]| - 1 ensures Less(texts[1..][i], texts[1..][i + 1]) {
      assert Less(texts[i + 1], texts[i + 1 + 1]);
    }
  }

  lemma {:induction false} InsertAscends(text: seq<byte>, texts: seq<seq<byte>>)
    requires StrictlyAscending(texts)
    ensures StrictlyAscending(Insert(text, texts))
  {
    if texts != [] && !Less(text, texts[0]) && text != texts[0] {
      LessTotal(text, texts[0]);
      TailAscends(texts);
      InsertAscends(text, texts[1..]);
      var r := Insert(text, texts[1..]);
      assert r[0] == text || (|texts| > 1 && r[0] == texts[1]);
      var all := [texts[0]] + r;
      forall i | 0 <= i < |all| - 1 ensures Less(all[i], all[i + 1]) {
        if i > 0 { assert Less(r[i - 1], r[i - 1 + 1]); } else if r[0] != text { assert Less(texts[0], texts[0 + 1]); }
      }
    } else if texts == [] || Less(text, texts[0]) {
      var all := [text] + texts;
      forall i | 0 <= i < |all| - 1 ensures Less(all[i], all[i + 1]) {
        if i > 0 { assert Less(texts[i - 1], texts[i - 1 + 1]); }
      }
    }
  }

  /** The elements of an ordered set, in order. */
  ghost function Ordered(all: set<seq<byte>>): (r: seq<seq<byte>>)
    ensures forall t :: t in r <==> t in all
  {
    if all == {} then [] else
      var t :| t in all;
      Insert(t, Ordered(all - {t}))
  }

  lemma {:induction false} OrderedAscends(all: set<seq<byte>>)
    ensures StrictlyAscending(Ordered(all))
  {
    if all != {} {
      var t :| t in all && Ordered(all) == Insert(t, Ordered(all - {t}));
      OrderedAscends(all - {t});
      InsertAscends(t, Ordered(all - {t}));
    }
  }

  lemma {:induction false} FirstIsLeast(texts: seq<seq<byte>>, i: nat)
    requires StrictlyAscending(texts) && 0 < i < |texts|
    ensures Less(texts[0], texts[i])
    decreases i
  {
    if i > 1 {
      FirstIsLeast(texts, i - 1);
      assert Less(texts[i - 1], texts[i - 1 + 1]);
      LessTransitive(texts[0], texts[i - 1], texts[i]);
    } else {
      assert Less(texts[0], texts[0 + 1]);
    }
  }

  lemma {:induction false} EmptyTexts(b: seq<seq<byte>>)
    ensures b == [] || b[0] in b
  {
  }

  /** A set has one strictly ascending list. */
  lemma {:induction false} AscendingUnique(a: seq<seq<byte>>, b: seq<seq<byte>>)
    requires StrictlyAscending(a) && StrictlyAscending(b) && forall t :: t in a <==> t in b
    ensures a == b
  {
    if a == [] {
      EmptyTexts(b);
    } else {
      assert a[0] in b;
      assert b[0] in a;
      var i :| 0 <= i < |b| && b[i] == a[0];
      var j :| 0 <= j < |a| && a[j] == b[0];
      if i > 0 && j > 0 {
        FirstIsLeast(b, i);
        FirstIsLeast(a, j);
        LessTransitive(a[0], b[0], a[0]);
        LessIrreflexive(a[0]);
      }
      assert a[0] == b[0];
      TailOf(a);
      TailOf(b);
      AscendingUnique(a[1..], b[1..]);
    }
  }

  lemma {:induction false} TailOf(a: seq<seq<byte>>)
    requires StrictlyAscending(a) && a != []
    ensures StrictlyAscending(a[1..]) && forall t :: t in a[1..] <==> t in a && t != a[0]
  {
    forall i | 0 <= i < |a[1..]| - 1 ensures Less(a[1..][i], a[1..][i + 1]) { assert Less(a[i + 1], a[i + 1 + 1]); }
    forall i | 0 < i < |a| ensures a[i] != a[0] { FirstIsLeast(a, i); LessIrreflexive(a[0]); }
    forall t | t in a && t != a[0] ensures t in a[1..] {
      var i :| 0 <= i < |a| && a[i] == t;
      assert a[1..][i - 1] == t;
    }
  }

  // ----- authorities

  /** `Authority::valid`. */
  predicate ValidAuthority(a: Authority) {
    && (forall key | key in a.operations :: OperationKey(key))
    && (forall id | id in a.resources :: Identifier(id))
  }

  ghost function TextsOf(names: set<string>): (texts: seq<seq<byte>>) { Ordered(set s | s in names :: Ascii(s)) }

  ghost function TextList(names: set<string>): Value { List(SchemaCodec.Texts(TextsOf(names))) }

  ghost function AuthorityValue(a: Authority): Value {
    Map([Field(Ascii("operations"), TextList(a.operations)), Field(Ascii("resources"), TextList(a.resources))])
  }

  /** A list of texts that starts above the empty text and ascends strictly, as a set. */
  function Strings(v: Value): (r: Option<set<string>>) {
    if !v.List? || exists i | 0 <= i < |v.items| :: !v.items[i].String? then None
    else
      var texts := seq(|v.items|, i requires 0 <= i < |v.items| => v.items[i].text);
      if (texts != [] && texts[0] == []) || !StrictlyAscending(texts) then None
      else Some(set t | t in texts :: Chars(t))
  }

  /** `Authority::from_value`. */
  function AuthorityOf(v: Value): Option<Authority> {
    if !v.Map? || |v.fields| != 2 then None
    else
      var operations := Schemas.Lookup(v.fields, Ascii("operations"));
      var resources := Schemas.Lookup(v.fields, Ascii("resources"));
      if operations.None? || resources.None? then None
      else
        var ops, res := Strings(operations.value), Strings(resources.value);
        if ops.None? || res.None? || !ValidAuthority(Authority(ops.value, res.value)) then None
        else Some(Authority(ops.value, res.value))
  }

  lemma {:induction false} KeysAreAscii(key: string)
    ensures Identifier(key) || OperationKey(key) ==> key != [] && forall c | c in key :: c < 128 as char
  {
    if OperationKey(key) {
      var parts := SplitOnce(key, '/').value;
      var name := SplitLast(parts.0, '@').value;
      forall c | c in key ensures c < 128 as char {
        assert c in parts.0 || c == '/' || c in parts.1;
        assert c in parts.0 ==> c in name.0 || c == '@' || c in name.1;
      }
    }
  }

  lemma {:induction false} KeyText(s: string)
    requires Identifier(s) || OperationKey(s)
    ensures Ascii(s) != [] && Utf8(Ascii(s)) && Chars(Ascii(s)) == s
  {
    hide Utf8, Identifier, OperationKey;
    KeysAreAscii(s);
    CharsAscii(s);
    forall i | 0 <= i < |s| ensures s[i] < 128 as char { assert s[i] in s; }
    SchemaCodec.AsciiText(s);
    assert |Ascii(s)| == |s|;
  }

  lemma {:induction false} TextsBack(names: set<string>)
    requires forall s | s in names :: Identifier(s) || OperationKey(s)
    ensures var texts := TextsOf(names);
      StrictlyAscending(texts) && (forall t | t in texts :: t != [] && Utf8(t))
        && (set t | t in texts :: Chars(t)) == names
  {
    hide OperationKey, Identifier, Utf8, Less, Chars, Ascii;
    var texts := TextsOf(names);
    OrderedAscends(set s | s in names :: Ascii(s));
    forall t | t in texts ensures t != [] && Utf8(t) && Chars(t) in names {
      var s :| s in names && t == Ascii(s);
      KeyText(s);
    }
    forall s | s in names ensures s in (set t | t in texts :: Chars(t)) {
      KeyText(s);
      assert Ascii(s) in texts;
    }
  }

  lemma {:induction false} StringsBack(names: set<string>)
    requires forall s | s in names :: Identifier(s) || OperationKey(s)
    ensures Strings(TextList(names)) == Some(names) && Portable(TextList(names))
  {
    hide OperationKey, Identifier, Utf8, Less, Chars, Ascii, TextsOf, StrictlyAscending;
    var texts := TextsOf(names);
    var items := SchemaCodec.Texts(texts);
    TextsBack(names);
    assert seq(|items|, i requires 0 <= i < |items| => items[i].text) == texts;
    if texts != [] { assert texts[0] in texts; }
    forall i | 0 <= i < |items| ensures Portable(items[i]) { assert texts[i] in texts; }
  }

  lemma {:induction false} TextsAre(texts: seq<seq<byte>>, names: set<string>)
    requires StrictlyAscending(texts) && names == set t | t in texts :: Chars(t)
    ensures TextsOf(names) == texts
  {
    hide Less, Chars, Ascii, StrictlyAscending;
    forall t | t in texts ensures t in TextsOf(names) {
      AsciiChars(t);
      assert Chars(t) in names;
    }
    forall t | t in TextsOf(names) ensures t in texts {
      var s :| s in names && t == Ascii(s);
      var u :| u in texts && s == Chars(u);
      AsciiChars(u);
    }
    OrderedAscends(set s | s in names :: Ascii(s));
    AscendingUnique(texts, TextsOf(names));
  }

  lemma {:induction false} StringsAre(v: Value)
    requires Strings(v).Some?
    ensures v == TextList(Strings(v).value)
  {
    hide Less, Chars, Ascii, StrictlyAscending, TextsOf;
    var texts := seq(|v.items|, i requires 0 <= i < |v.items| => v.items[i].text);
    TextsAre(texts, Strings(v).value);
    assert v.items == SchemaCodec.Texts(texts);
  }

  // ----- the fields of a map

  function Keys(fields: seq<Field>): (keys: seq<seq<byte>>)
    ensures |keys| == |fields| && forall i | 0 <= i < |fields| :: keys[i] == fields[i].key
  {
    seq(|fields|, i requires 0 <= i < |fields| => fields[i].key)
  }

  lemma {:induction false} LookupFinds(fields: seq<Field>, key: seq<byte>)
    ensures Schemas.Lookup(fields, key).Some? ==> key in Keys(fields)
  {
    if fields != [] {
      LookupFinds(fields[1..], key);
      assert Keys(fields) == [fields[0].key] + Keys(fields[1..]);
    }
  }

  lemma {:induction false} LookupAt(fields: seq<Field>, i: nat)
    requires StrictlyAscending(Keys(fields)) && i < |fields|
    ensures Schemas.Lookup(fields, fields[i].key) == Some(fields[i].value)
  {
    if i > 0 {
      assert Keys(fields)[1..] == Keys(fields[1..]);
      TailOf(Keys(fields));
      FirstIsLeast(Keys(fields), i);
      LessIrreflexive(fields[0].key);
      LookupAt(fields[1..], i - 1);
    }
  }

  lemma {:induction false} AscendingSize(texts: seq<seq<byte>>)
    requires StrictlyAscending(texts)
    ensures |set t | t in texts| == |texts|
  {
    if texts != [] {
      TailOf(texts);
      AscendingSize(texts[1..]);
      assert (set t | t in texts) == {texts[0]} + set t | t in texts[1..];
    } else {
      assert (set t | t in texts) == {};
    }
  }

  lemma {:induction false} SameSize(a: set<seq<byte>>, b: set<seq<byte>>)
    requires a <= b && |a| == |b|
    ensures a == b
  {
    if t :| t in b && t !in a {
      assert a + {t} <= b;
      SubsetSize(a + {t}, b);
    }
  }

  lemma {:induction false} SubsetSize(a: set<seq<byte>>, b: set<seq<byte>>)
    requires a <= b
    ensures |a| <= |b|
  {
    if t :| t in a { SubsetSize(a - {t}, b - {t}); }
  }

  /** A map of exactly the expected keys has them in order. */
  lemma {:induction false} FieldsAre(fields: seq<Field>, keys: seq<seq<byte>>)
    requires StrictlyAscending(Keys(fields)) && StrictlyAscending(keys) && |fields| == |keys|
    requires forall key | key in keys :: Schemas.Lookup(fields, key).Some?
    ensures forall i | 0 <= i < |keys| ::
      fields[i].key == keys[i] && Schemas.Lookup(fields, keys[i]) == Some(fields[i].value)
  {
    var a, b := (set t | t in keys), set t | t in Keys(fields);
    forall t | t in keys ensures t in Keys(fields) { LookupFinds(fields, t); }
    AscendingSize(keys);
    AscendingSize(Keys(fields));
    SameSize(a, b);
    forall t ensures t in keys <==> t in Keys(fields) { assert t in a <==> t in b; }
    AscendingUnique(Keys(fields), keys);
    forall i | 0 <= i < |keys| ensures Schemas.Lookup(fields, keys[i]) == Some(fields[i].value) { LookupAt(fields, i); }
  }

  /** ... and looking them up finds them. */
  lemma {:induction false} LookupAll(fields: seq<Field>)
    requires StrictlyAscending(Keys(fields))
    ensures forall i | 0 <= i < |fields| :: Schemas.Lookup(fields, fields[i].key) == Some(fields[i].value)
  {
    forall i | 0 <= i < |fields| ensures Schemas.Lookup(fields, fields[i].key) == Some(fields[i].value) {
      LookupAt(fields, i);
    }
  }

  lemma {:induction false} PortableMap(fields: seq<Field>)
    ensures Portable(Map(fields)) <==>
      StrictlyAscending(Keys(fields)) && forall i | 0 <= i < |fields| ::
        Utf8(fields[i].key) && Portable(fields[i].value)
  {
    if StrictlyAscending(Keys(fields)) {
      forall i | 0 <= i < |fields| - 1 ensures Less(fields[i].key, fields[i + 1].key) {
        assert Less(Keys(fields)[i], Keys(fields)[i + 1]);
      }
    }
  }

  lemma {:induction false} AuthorityKeys()
    ensures StrictlyAscending([Ascii("operations"), Ascii("resources")])
    ensures Utf8(Ascii("operations")) && Utf8(Ascii("resources"))
  {
    var keys := [Ascii("operations"), Ascii("resources")];
    assert Ascii("operations")[0] == 0x6F && Ascii("resources")[0] == 0x72;
    assert Less(keys[0], keys[1]);
    SchemaCodec.AsciiText("operations");
    SchemaCodec.AsciiText("resources");
  }

  lemma {:induction false} AuthorityMap(a: Authority)
    ensures AuthorityValue(a).Map? && Keys(AuthorityValue(a).fields) == [Ascii("operations"), Ascii("resources")]
  {
  }

  /** A valid authority and its value determine each other. */
  lemma {:induction false} AuthorityBijection(a: Authority, v: Value)
    ensures Portable(v) && AuthorityOf(v) == Some(a) <==> ValidAuthority(a) && v == AuthorityValue(a)
  {
    hide Strings, TextList, Utf8, Less, OperationKey, Identifier, Ascii, StrictlyAscending, Schemas.Lookup, Portable;
    AuthorityKeys();
    if ValidAuthority(a) && v == AuthorityValue(a) {
      StringsBack(a.operations);
      StringsBack(a.resources);
      AuthorityMap(a);
      LookupAll(v.fields);
      PortableMap(v.fields);
      assert v.fields[0].key == Ascii("operations") && v.fields[1].key == Ascii("resources");
    }
    if Portable(v) && AuthorityOf(v) == Some(a) {
      PortableMap(v.fields);
      FieldsAre(v.fields, [Ascii("operations"), Ascii("resources")]);
      StringsAre(v.fields[0].value);
      StringsAre(v.fields[1].value);
      assert v.fields == [Field(Ascii("operations"), v.fields[0].value), Field(Ascii("resources"), v.fields[1].value)];
    }
  }

  // ----- scoped requests

  function ResourceValue(resource: Option<string>): Value {
    if resource.None? then Null else String(Ascii(resource.value))
  }

  ghost function ScopedValue(scope: ScopedRequest, operation: string, request: seq<byte>): Value {
    Map([Field(Ascii("authority"), AuthorityValue(scope.authority)),
      Field(Ascii("operation"), String(Ascii(operation))),
         Field(Ascii("request"), Bytes(request)), Field(Ascii("resource"), ResourceValue(scope.resource))])
  }

  predicate ValidScoped(scope: ScopedRequest, operation: string) {
    && OperationKey(operation) && ValidAuthority(scope.authority)
    && (scope.resource.Some? ==> Identifier(scope.resource.value))
  }

  /** `ScopedRequest::encode`. */
  ghost function EncodeScoped(scope: ScopedRequest, operation: string, request: seq<byte>): Result<seq<byte>, Failure> {
    if ValidScoped(scope, operation) then Encode(ScopedValue(scope, operation, request))
      else Err(Failure(SchemaRejected))
  }

  function ScopedOf(v: Value): Option<(string, seq<byte>, ScopedRequest)> {
    if !v.Map? || |v.fields| != 4 then None
    else
      var authority := Schemas.Lookup(v.fields, Ascii("authority"));
      var operation := Schemas.Lookup(v.fields, Ascii("operation"));
      var request := Schemas.Lookup(v.fields, Ascii("request"));
      var resource := Schemas.Lookup(v.fields, Ascii("resource"));
      if authority.None? || operation.None? || request.None? || resource.None? then None
      else if !operation.value.String? || !request.value.Bytes? then None
      else if !(resource.value.Null? || (resource.value.String? && Identifier(Chars(resource.value.text)))) then None
      else
        var a := AuthorityOf(authority.value);
        if a.None? || !OperationKey(Chars(operation.value.text)) then None
        else Some((Chars(operation.value.text), request.value.data,
                   ScopedRequest(a.value, if resource.value.Null? then None else Some(Chars(resource.value.text)))))
  }

  /** `ScopedRequest::decode`. */
  function DecodeScoped(bytes: seq<byte>): Result<(string, seq<byte>, ScopedRequest), Failure> {
    match Decode(bytes)
    case Err(e) => Err(e)
    case Ok(v) => match ScopedOf(v) case Some(r) => Ok(r) case None => Err(Failure(SchemaRejected))
  }

  function ScopedKeyTexts(): seq<seq<byte>> {
    [Ascii("authority"), Ascii("operation"), Ascii("request"), Ascii("resource")]
  }

  lemma {:induction false} RequestBeforeResource()
    ensures Less(Ascii("request"), Ascii("resource"))
  {
    var q, s := Ascii("request"), Ascii("resource");
    assert q[0] == s[0] && q[1] == s[1] && q[2] == 0x71 && s[2] == 0x73;
    assert q[1..][1..] == q[2..] && s[1..][1..] == s[2..];
    assert Less(q[2..], s[2..]);
    assert Less(q[1..], s[1..]);
  }

  lemma {:induction false} ScopedKeys()
    ensures StrictlyAscending(ScopedKeyTexts())
    ensures forall key | key in ScopedKeyTexts() :: Utf8(key)
  {
    hide Utf8;
    var keys := ScopedKeyTexts();
    RequestBeforeResource();
    assert keys[0][0] == 0x61 && keys[1][0] == 0x6F && keys[2][0] == 0x72;
    assert Less(keys[0], keys[1]) && Less(keys[1], keys[2]);
    SchemaCodec.AsciiText("authority");
    SchemaCodec.AsciiText("operation");
    SchemaCodec.AsciiText("request");
    SchemaCodec.AsciiText("resource");
  }

  lemma {:induction false} ScopedMap(scope: ScopedRequest, operation: string, request: seq<byte>)
    ensures ScopedValue(scope, operation, request).Map?
    ensures Keys(ScopedValue(scope, operation, request).fields) == ScopedKeyTexts()
  {
  }

  lemma {:induction false} ScopedForwards(scope: ScopedRequest, operation: string, request: seq<byte>)
    requires ValidScoped(scope, operation)
    ensures var v := ScopedValue(scope, operation, request);
      Portable(v) && ScopedOf(v) == Some((operation, request, scope))
  {
    hide AuthorityOf, AuthorityValue, ValidAuthority, Utf8, Less, OperationKey, Identifier, Ascii, Chars;
    hide StrictlyAscending;
    hide Schemas.Lookup;
    var v := ScopedValue(scope, operation, request);
    ScopedKeys();
    ScopedMap(scope, operation, request);
    AuthorityBijection(scope.authority, AuthorityValue(scope.authority));
    KeyText(operation);
    if scope.resource.Some? { KeyText(scope.resource.value); }
    LookupAll(v.fields);
    PortableMap(v.fields);
    forall i | 0 <= i < 4 ensures Utf8(v.fields[i].key) { assert v.fields[i].key in ScopedKeyTexts(); }
    assert v.fields[0].key == Ascii("authority") && v.fields[1].key == Ascii("operation");
    assert v.fields[2].key == Ascii("request") && v.fields[3].key == Ascii("resource");
  }

  lemma {:induction false} ScopedBackwards(v: Value)
    requires Portable(v) && ScopedOf(v).Some?
    ensures var (operation, request, scope) := ScopedOf(v).value;
      ValidScoped(scope, operation) && v == ScopedValue(scope, operation, request)
  {
    hide AuthorityOf, AuthorityValue, ValidAuthority, Utf8, Less, OperationKey, Identifier, Ascii, Chars;
    hide StrictlyAscending;
    hide Schemas.Lookup, Portable;
    ScopedKeys();
    PortableMap(v.fields);
    FieldsAre(v.fields, ScopedKeyTexts());
    var f := v.fields;
    assert Schemas.Lookup(f, ScopedKeyTexts()[0]) == Some(f[0].value)
      && Schemas.Lookup(f, ScopedKeyTexts()[1]) == Some(f[1].value);
    assert Schemas.Lookup(f, ScopedKeyTexts()[2]) == Some(f[2].value)
      && Schemas.Lookup(f, ScopedKeyTexts()[3]) == Some(f[3].value);
    AuthorityBijection(AuthorityOf(f[0].value).value, f[0].value);
    AsciiChars(f[1].value.text);
    if f[3].value.String? { AsciiChars(f[3].value.text); }
    assert f == [Field(Ascii("authority"), f[0].value), Field(Ascii("operation"), f[1].value),
                 Field(Ascii("request"), f[2].value), Field(Ascii("resource"), f[3].value)];
  }

  /** A scoped request and its bytes determine each other. */
  lemma {:induction false} ScopedBijection(scope: ScopedRequest, operation: string, request: seq<byte>,
                                           bytes: seq<byte>)
    ensures EncodeScoped(scope, operation, request) == Ok(bytes) <==>
      DecodeScoped(bytes) == Ok((operation, request, scope))
  {
    hide ScopedOf, ScopedValue, ValidScoped, Encode, Decode, Portable;
    if EncodeScoped(scope, operation, request) == Ok(bytes) {
      ScopedForwards(scope, operation, request);
      Bijection(ScopedValue(scope, operation, request), bytes);
    }
    if DecodeScoped(bytes) == Ok((operation, request, scope)) {
      Bijection(Decode(bytes).value, bytes);
      ScopedBackwards(Decode(bytes).value);
    }
  }

  /** What stands under which name. */
  lemma ScopedNames(scope: ScopedRequest, operation: string, request: seq<byte>)
    ensures
      var fields, authority := ScopedValue(scope, operation, request).fields, AuthorityValue(scope.authority).fields;
      && |fields| == 4 && |authority| == 2
      && Schemas.Lookup(authority, Ascii("operations")) == Some(TextList(scope.authority.operations))
      && Schemas.Lookup(authority, Ascii("resources")) == Some(TextList(scope.authority.resources))
      && Schemas.Lookup(fields, Ascii("authority")) == Some(AuthorityValue(scope.authority))
      && Schemas.Lookup(fields, Ascii("operation")) == Some(String(Ascii(operation)))
      && Schemas.Lookup(fields, Ascii("request")) == Some(Bytes(request))
      && Schemas.Lookup(fields, Ascii("resource")) ==
         Some(if scope.resource.Some? then String(Ascii(scope.resource.value)) else Null)
  {
    hide Ascii, Schemas.Lookup, StrictlyAscending;
    var fields, authority := ScopedValue(scope, operation, request).fields, AuthorityValue(scope.authority).fields;
    ScopedKeys();
    ScopedMap(scope, operation, request);
    LookupAt(fields, 0);
    LookupAt(fields, 1);
    LookupAt(fields, 2);
    LookupAt(fields, 3);
    AuthorityKeys();
    AuthorityMap(scope.authority);
    LookupAt(authority, 0);
    LookupAt(authority, 1);
    assert fields[3].value == ResourceValue(scope.resource);
  }
}
