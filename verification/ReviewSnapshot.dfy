/** Financial reviews: what a person confirmed is bound by a hash of its canonical form, and a stored copy
    is accepted again only if it still is that review. */
module ReviewSnapshot {
  import opened Wrappers
  import opened Text
  import opened CanonicalJson

  datatype Scope = Scope(action: Key, profileId: Key, resourceId: Key)

  datatype Fault = IncompleteScope | InexactValue

  const SCHEMA_VERSION: Key := [115, 99, 104, 101, 109, 97, 86, 101, 114, 115, 105, 111, 110]
  const SCOPE: Key := [115, 99, 111, 112, 101]
  const DATA: Key := [100, 97, 116, 97]
  const HASH: Key := [104, 97, 115, 104]
  const ACTION: Key := [97, 99, 116, 105, 111, 110]
  const PROFILE_ID: Key := [112, 114, 111, 102, 105, 108, 101, 73, 100]
  const RESOURCE_ID: Key := [114, 101, 115, 111, 117, 114, 99, 101, 73, 100]
  const MAX_SAFE_INTEGER := 0x1F_FFFF_FFFF_FFFF

  function Get(v: Json, key: Key): Option<Json> {
    if v.Obj? then Lookup(v.fields, key) else None
  }

  function Lookup(fields: seq<Field>, key: Key): (value: Option<Json>)
    ensures value.None? <==> forall i :: 0 <= i < |fields| ==> fields[i].key != key
    ensures value.Some? ==> Field(key, value.value) in fields
  {
    if fields == [] then None
    else if fields[0].key == key then Some(fields[0].value)
    else Lookup(fields[1..], key)
  }

  predicate Blank(text: Key) {
    forall i :: 0 <= i < |text| ==> IsSpace(text[i])
  }

  predicate IsHash(text: Key) {
    |text| == 64 && forall i :: 0 <= i < 64 ==> 48 <= text[i] <= 57 || 97 <= text[i] <= 102
  }

  predicate IsText(v: Option<Json>) {
    v.Some? && v.value.Str?
  }

  /** No number in the value would be rounded, replaced or lost by JSON. */
  predicate Exact(v: Json) {
    match v
    case Num(number) => !number.NotFinite? && (number.Whole? ==> -MAX_SAFE_INTEGER <= number.n <= MAX_SAFE_INTEGER)
    case Arr(items) => forall i :: 0 <= i < |items| ==> Exact(items[i])
    case Obj(fields) => forall i :: 0 <= i < |fields| ==> Exact(fields[i].value)
    case _ => true
  }

  predicate Complete(scope: Json) {
    && IsText(Get(scope, ACTION)) && !Blank(Get(scope, ACTION).value.text)
    && IsText(Get(scope, PROFILE_ID)) && Get(scope, PROFILE_ID).value.text != []
    && IsText(Get(scope, RESOURCE_ID)) && Get(scope, RESOURCE_ID).value.text != []
  }

  function ScopeJson(scope: Scope): Json {
    Obj([Field(ACTION, Str(scope.action)), Field(PROFILE_ID, Str(scope.profileId)),
         Field(RESOURCE_ID, Str(scope.resourceId))])
  }

  function Body(scope: Json, data: Json): Json {
    Obj([Field(SCHEMA_VERSION, Num(Whole(1))), Field(SCOPE, scope), Field(DATA, data)])
  }

  /** The hash of a review: a digest of its canonical text. */
  function HashOf(digest: Json -> Key, scope: Json, data: Json): Key {
    digest(Canonical(Body(scope, data)))
  }

  function Create(digest: Json -> Key, scope: Json, data: Json): Result<Json, Fault> {
    if !Complete(scope) then Err(IncompleteScope)
    else if !Exact(Body(scope, data)) then Err(InexactValue)
    else Ok(Obj(Canonical(Body(scope, data)).fields + [Field(HASH, Str(HashOf(digest, scope, data)))]))
  }

  predicate Confirmed(digest: Json -> Key, snapshot: Json, expected: Key) {
    && IsHash(expected)
    && Get(snapshot, SCHEMA_VERSION) == Some(Num(Whole(1)))
    && Get(snapshot, HASH) == Some(Str(expected))
    && Get(snapshot, SCOPE).Some? && Get(snapshot, DATA).Some?
    && Create(digest, Get(snapshot, SCOPE).value, Get(snapshot, DATA).value).Ok?
    && HashOf(digest, Get(snapshot, SCOPE).value, Get(snapshot, DATA).value) == expected
  }

  predicate ScopeIs(stored: Json, scope: Scope) {
    && Get(stored, ACTION) == Some(Str(scope.action))
    && Get(stored, PROFILE_ID) == Some(Str(scope.profileId))
    && Get(stored, RESOURCE_ID) == Some(Str(scope.resourceId))
  }

  /** What a replayed command checks about the review stored with the first one. */
  predicate AcceptsStored(digest: Json -> Key, stored: Option<Json>, expected: Key, scope: Scope) {
    && stored.Some? && Get(stored.value, SCOPE).Some?
    && ScopeIs(Get(stored.value, SCOPE).value, scope)
    && Confirmed(digest, stored.value, expected)
  }

  /** The digits and the letters a to f, as code units. */
  const HEX_DIGITS: Key := [48, 49, 50, 51, 52, 53, 54, 55, 56, 57, 97, 98, 99, 100, 101, 102]

  /** A hash is 64 lower-case hexadecimal digits, and blank is a text of nothing but white space. */
  lemma TextsAre(text: Key)
    ensures IsHash(text) <==> |text| == 64 && forall u :: u in text ==> u in HEX_DIGITS
    ensures Blank(text) <==> forall u :: u in text ==> IsSpace(u)
  {
    forall i | 0 <= i < |text| ensures text[i] in text {}
    forall u ensures u in HEX_DIGITS <==> 48 <= u <= 57 || 97 <= u <= 102 {
      if 48 <= u <= 57 { assert HEX_DIGITS[u - 48] == u; }
      if 97 <= u <= 102 { assert HEX_DIGITS[u - 87] == u; }
    }
  }

  // ---------------------------------------------------------------- fields by name

  lemma Names()
    ensures forall k :: k in {SCHEMA_VERSION, SCOPE, DATA, HASH, ACTION, PROFILE_ID, RESOURCE_ID} ==> !IsIndex(k)
    ensures DATA != HASH
  {
    assert DATA[0] != HASH[0];
    assert SCHEMA_VERSION[0] == 115 && SCOPE[0] == 115 && DATA[0] == 100 && HASH[0] == 104;
    assert ACTION[0] == 97 && PROFILE_ID[0] == 112 && RESOURCE_ID[0] == 114;
  }

  lemma {:induction false} LookupFinds(fields: seq<Field>, i: nat)
    requires DistinctKeys(fields) && i < |fields|
    ensures Lookup(fields, fields[i].key) == Some(fields[i].value)
  {
    if i > 0 {
      LookupFinds(fields[1..], i - 1);
    }
  }

  lemma GetFinds(v: Json, f: Field)
    requires v.Obj? && DistinctKeys(v.fields) && f in v.fields
    ensures Get(v, f.key) == Some(f.value)
  {
    var i :| 0 <= i < |v.fields| && v.fields[i] == f;
    LookupFinds(v.fields, i);
  }

  lemma BodyIsProper(scope: Json, data: Json)
    requires Proper(scope) && Proper(data)
    ensures Proper(Body(scope, data))
  {
    Names();
  }

  lemma ScopeIsProper(scope: Scope)
    ensures Proper(ScopeJson(scope))
    ensures Get(ScopeJson(scope), ACTION) == Some(Str(scope.action))
    ensures Get(ScopeJson(scope), PROFILE_ID) == Some(Str(scope.profileId))
    ensures Get(ScopeJson(scope), RESOURCE_ID) == Some(Str(scope.resourceId))
  {
    Names();
    var v := ScopeJson(scope);
    LookupFinds(v.fields, 0);
    LookupFinds(v.fields, 1);
    LookupFinds(v.fields, 2);
  }

  lemma TwinObjects(a: seq<Field>, b: seq<Field>)
    requires DistinctKeys(a) && DistinctKeys(b) && |a| == |b|
    requires forall i :: 0 <= i < |a| ==> Twins(a[i], b[i])
    ensures Canonical(Obj(a)) == Canonical(Obj(b))
  {
    forall i | 0 <= i < |a| ensures HasTwin(a[i], b) && HasTwin(b[i], a) {
      assert Twins(a[i], b[i]) && Twins(b[i], a[i]);
    }
    forall f ensures f in Canonical(Obj(a)).fields <==> f in Canonical(Obj(b)).fields {
      if f in Canonical(Obj(a)).fields { TwinsCarryOver(a, b, f); }
      if f in Canonical(Obj(b)).fields { TwinsCarryOver(b, a, f); }
    }
    SameFieldsSameObject(a, b);
  }

  lemma TwinFields(a: seq<Field>, b: seq<Field>, i: nat)
    requires DistinctKeys(b) && |a| == |b| && i < |a| && a[i].key == b[i].key
    requires Canonical(Obj(a)) == Canonical(Obj(b))
    ensures Canonical(a[i].value) == Canonical(b[i].value)
  {
    var j := Counterpart(a, b, i);
    assert j == i;
  }

  lemma TwinTriples(a: seq<Field>, b: seq<Field>)
    requires DistinctKeys(a) && DistinctKeys(b) && |a| == |b| == 3
    requires Twins(a[0], b[0]) && a[1].key == b[1].key && a[2].key == b[2].key
    ensures Canonical(Obj(a)) == Canonical(Obj(b)) <==> Twins(a[1], b[1]) && Twins(a[2], b[2])
  {
    if Twins(a[1], b[1]) && Twins(a[2], b[2]) {
      TwinObjects(a, b);
    }
    if Canonical(Obj(a)) == Canonical(Obj(b)) {
      TwinFields(a, b, 1);
      TwinFields(a, b, 2);
    }
  }

  /** Reviews have one canonical body exactly when their scopes and their data do. */
  lemma BodyCanonical(scope: Json, data: Json, scope': Json, data': Json)
    ensures Canonical(Body(scope, data)) == Canonical(Body(scope', data'))
       <==> Canonical(scope) == Canonical(scope') && Canonical(data) == Canonical(data')
  {
    var a, b := Body(scope, data).fields, Body(scope', data').fields;
    BodyKeys(scope, data);
    BodyKeys(scope', data');
    TwinTriples(a, b);
  }

  lemma BodyKeys(scope: Json, data: Json)
    ensures DistinctKeys(Body(scope, data).fields)
  {
    Names();
  }

  lemma {:induction false} SameIsExact(v: Json, w: Json)
    requires Same(v, w) && Exact(v)
    ensures Exact(w)
    decreases v
  {
    if v.Arr? {
      forall i | 0 <= i < |v.items| ensures Exact(w.items[i]) { SameIsExact(v.items[i], w.items[i]); }
    } else if v.Obj? {
      forall j | 0 <= j < |w.fields| ensures Exact(w.fields[j].value) {
        assert FoundAmong(v.fields, w.fields[j]);
        var i :| 0 <= i < |v.fields| && SameField(v.fields[i], w.fields[j]);
        SameIsExact(v.fields[i].value, w.fields[j].value);
      }
    }
  }

  lemma SameGet(fields: seq<Field>, w: Json, i: nat)
    requires Same(Obj(fields), w) && Proper(w) && i < |fields|
    ensures Get(w, fields[i].key).Some? && Same(fields[i].value, Get(w, fields[i].key).value)
  {
    OwnOrderIsDistinct(w.fields);
    assert FoundIn(fields[i], w.fields);
    var j :| 0 <= j < |w.fields| && SameField(fields[i], w.fields[j]);
    GetFinds(w, w.fields[j]);
  }

  lemma SameText(scope: Scope, stored: Json)
    requires Same(ScopeJson(scope), stored) && Proper(stored)
    ensures ScopeIs(stored, scope)
  {
    var fields := ScopeJson(scope).fields;
    SameGet(fields, stored, 0);
    SameGet(fields, stored, 1);
    SameGet(fields, stored, 2);
  }

  // ---------------------------------------------------------------- what a hash binds

  ghost predicate GivesHashes(digest: Json -> Key) {
    forall a :: IsHash(digest(a))
  }

  /** The stored value still is the review of `scope` and `data`, key order aside. */
  ghost predicate SameReview(stored: Json, hash: Key, scope: Scope, data: Json) {
    && Get(stored, SCHEMA_VERSION) == Some(Num(Whole(1)))
    && Get(stored, HASH) == Some(Str(hash))
    && Get(stored, SCOPE).Some? && Same(ScopeJson(scope), Get(stored, SCOPE).value)
    && Get(stored, DATA).Some? && Same(data, Get(stored, DATA).value)
  }

  lemma PartsAreProper(stored: Json, key: Key)
    requires Proper(stored) && Get(stored, key).Some?
    ensures Proper(Get(stored, key).value)
  {
    var f := Field(key, Get(stored, key).value);
    var i :| 0 <= i < |stored.fields| && stored.fields[i] == f;
  }

  /** The review of `scope` and `data` and the one found in a stored value have different canonical bodies and
      one digest. */
  predicate Collides(digest: Json -> Key, scope: Scope, data: Json, stored: Json) {
    && Get(stored, SCOPE).Some? && Get(stored, DATA).Some?
    && var a, b := Canonical(Body(ScopeJson(scope), data)),
                   Canonical(Body(Get(stored, SCOPE).value, Get(stored, DATA).value));
       a != b && digest(a) == digest(b)
  }

  /** Whatever is accepted with the hash of a review is that review, or its body collides with the review's. */
  lemma AcceptedIsSame(digest: Json -> Key, scope: Scope, data: Json, stored: Json, asked: Scope)
    requires Proper(data) && Proper(stored)
    requires AcceptsStored(digest, Some(stored), HashOf(digest, ScopeJson(scope), data), asked)
    ensures Collides(digest, scope, data, stored) ||
            (asked == scope && SameReview(stored, HashOf(digest, ScopeJson(scope), data), scope, data))
  {
    if Collides(digest, scope, data, stored) {
      return;
    }
    var scope', data' := Get(stored, SCOPE).value, Get(stored, DATA).value;
    BodyCanonical(ScopeJson(scope), data, scope', data');
    PartsAreProper(stored, SCOPE);
    ScopeIsProper(scope);
    CanonicalIsSame(ScopeJson(scope), scope');
    CanonicalIsSame(data, data');
    SameText(scope, scope');
  }

  lemma PartsAreExact(scope: Json, data: Json)
    requires Exact(Body(scope, data))
    ensures Exact(scope) && Exact(data)
  {
    var fields := Body(scope, data).fields;
    assert Exact(fields[1].value) && Exact(fields[2].value);
  }

  lemma BodyIsExact(scope: Json, data: Json)
    requires Exact(scope) && Exact(data)
    ensures Exact(Body(scope, data))
  {
    var fields := Body(scope, data).fields;
    assert Exact(fields[0].value);
  }

  lemma SameComplete(scope: Scope, a: Json, b: Json)
    requires ScopeIs(a, scope) && ScopeIs(b, scope) && Complete(a)
    ensures Complete(b)
  {}

  lemma SameHash(digest: Json -> Key, scope: Json, data: Json, scope': Json, data': Json)
    requires Proper(scope) && Proper(data) && Proper(scope') && Proper(data')
    requires Same(scope, scope') && Same(data, data')
    ensures HashOf(digest, scope, data) == HashOf(digest, scope', data')
  {
    SameIsCanonical(scope, scope');
    SameIsCanonical(data, data');
    BodyCanonical(scope, data, scope', data');
  }

  lemma SameIsCreatable(digest: Json -> Key, scope: Scope, data: Json, scope': Json, data': Json)
    requires Create(digest, ScopeJson(scope), data).Ok? && Proper(scope')
    requires Same(ScopeJson(scope), scope') && Same(data, data')
    ensures Create(digest, scope', data').Ok?
  {
    ScopeIsProper(scope);
    SameText(scope, scope');
    PartsAreExact(ScopeJson(scope), data);
    SameIsExact(ScopeJson(scope), scope');
    SameIsExact(data, data');
    BodyIsExact(scope', data');
    SameComplete(scope, ScopeJson(scope), scope');
  }

  lemma SameIsAccepted(digest: Json -> Key, scope: Scope, data: Json, stored: Json)
    requires GivesHashes(digest) && Proper(data) && Proper(stored)
    requires Create(digest, ScopeJson(scope), data).Ok?
    requires SameReview(stored, HashOf(digest, ScopeJson(scope), data), scope, data)
    ensures AcceptsStored(digest, Some(stored), HashOf(digest, ScopeJson(scope), data), scope)
  {
    var scope', data' := Get(stored, SCOPE).value, Get(stored, DATA).value;
    PartsAreProper(stored, SCOPE);
    PartsAreProper(stored, DATA);
    ScopeIsProper(scope);
    SameText(scope, scope');
    SameHash(digest, ScopeJson(scope), data, scope', data');
    SameIsCreatable(digest, scope, data, scope', data');
  }

  /** A stored value whose body does not collide with the review's is accepted with the hash of the review
      exactly when it still is that review and is asked for under its own scope. */
  lemma StoredIffSame(digest: Json -> Key, scope: Scope, data: Json, stored: Json, asked: Scope)
    requires GivesHashes(digest) && Proper(data) && Proper(stored)
    requires Create(digest, ScopeJson(scope), data).Ok? && !Collides(digest, scope, data, stored)
    ensures var hash := HashOf(digest, ScopeJson(scope), data);
      AcceptsStored(digest, Some(stored), hash, asked) <==> asked == scope && SameReview(stored, hash, scope, data)
  {
    var hash := HashOf(digest, ScopeJson(scope), data);
    if AcceptsStored(digest, Some(stored), hash, asked) {
      AcceptedIsSame(digest, scope, data, stored, asked);
    }
    if asked == scope && SameReview(stored, hash, scope, data) {
      SameIsAccepted(digest, scope, data, stored);
    }
  }

  // ---------------------------------------------------------------- what is refused

  /** A number found anywhere in a value. */
  predicate Occurs(number: Number, v: Json) {
    match v
    case Num(n) => n == number
    case Arr(items) => exists i :: 0 <= i < |items| && Occurs(number, items[i])
    case Obj(fields) => exists i :: 0 <= i < |fields| && Occurs(number, fields[i].value)
    case _ => false
  }

  /** A number that JSON keeps as it is. */
  predicate Kept(number: Number) {
    match number
    case NotFinite => false
    case Whole(n) => -9007199254740992 < n < 9007199254740992
    case _ => true
  }

  /** A value is exact if JSON keeps every number in it. */
  lemma {:induction false} ExactIff(v: Json)
    ensures Exact(v) <==> forall number :: Occurs(number, v) ==> Kept(number)
  {
    match v
    case Num(n) => assert Occurs(n, v);
    case Arr(items) =>
      forall i | 0 <= i < |items|
        ensures Exact(items[i]) <==> forall number :: Occurs(number, items[i]) ==> Kept(number)
      {
        ExactIff(items[i]);
      }
    case Obj(fields) =>
      forall i | 0 <= i < |fields|
        ensures Exact(fields[i].value) <==> forall number :: Occurs(number, fields[i].value) ==> Kept(number)
      {
        ExactIff(fields[i].value);
      }
    case _ =>
  }

  lemma BodyExactIff(scope: Json, data: Json)
    ensures Exact(Body(scope, data)) <==> Exact(scope) && Exact(data)
  {
    if Exact(scope) && Exact(data) { BodyIsExact(scope, data); }
    if Exact(Body(scope, data)) { PartsAreExact(scope, data); }
  }

  /** A review is refused exactly for a blank action or an empty profile or resource, or else for a number in its
      data that JSON would change. */
  lemma CreateIff(digest: Json -> Key, scope: Scope, data: Json)
    ensures var review := Create(digest, ScopeJson(scope), data);
      var named := scope.profileId != [] && scope.resourceId != [] && exists u :: u in scope.action && !IsSpace(u);
      && (review == Err(IncompleteScope) <==> !named)
      && (review == Err(InexactValue) <==> named && exists number :: Occurs(number, data) && !Kept(number))
  {
    ScopeIsProper(scope);
    TextsAre(scope.action);
    BodyExactIff(ScopeJson(scope), data);
    ExactIff(data);
  }

  // ---------------------------------------------------------------- a review and its stored copy

  lemma AddedFieldIsProper(fields: seq<Field>, f: Field)
    requires Proper(Obj(fields)) && Proper(f.value) && !IsIndex(f.key)
    requires forall i :: 0 <= i < |fields| ==> fields[i].key != f.key
    ensures Proper(Obj(fields + [f]))
  {}

  lemma BodyHasNoHash(body: Json, f: Field)
    requires body.Obj? && |body.fields| == 3 && f in Canonical(body).fields
    requires body.fields[0].key == SCHEMA_VERSION && body.fields[1].key == SCOPE && body.fields[2].key == DATA
    ensures f.key != HASH
  {
    Names();
    CanonicalHolds(body.fields, f);
  }

  lemma CreatedIsProper(digest: Json -> Key, scope: Json, data: Json)
    requires Proper(scope) && Proper(data) && Create(digest, scope, data).Ok?
    ensures Proper(Create(digest, scope, data).value)
  {
    var body := Body(scope, data);
    BodyIsProper(scope, data);
    CanonicalIsProper(body);
    Names();
    var fields := Canonical(body).fields;
    forall i | 0 <= i < |fields| ensures fields[i].key != HASH {
      BodyHasNoHash(body, fields[i]);
    }
    AddedFieldIsProper(fields, Field(HASH, Str(HashOf(digest, scope, data))));
  }

  /** A part of a review, as found in any copy that has the same values under the same keys. */
  lemma StoredPart(digest: Json -> Key, scope: Json, data: Json, stored: Json, i: nat)
    requires Proper(scope) && Proper(data) && Create(digest, scope, data).Ok? && i < 3
    requires Proper(stored) && Same(Create(digest, scope, data).value, stored)
    ensures var part := Body(scope, data).fields[i];
      Get(stored, part.key).Some? && Same(part.value, Get(stored, part.key).value)
  {
    var body, snapshot := Body(scope, data), Create(digest, scope, data).value;
    var part := body.fields[i];
    var f := Field(part.key, Canonical(part.value));
    CanonicalHolds(body.fields, f);
    assert f in snapshot.fields;
    var j :| 0 <= j < |snapshot.fields| && snapshot.fields[j] == f;
    SameGet(snapshot.fields, stored, j);
    var found := Get(stored, part.key).value;
    PartsAreProper(stored, part.key);
    BodyIsProper(scope, data);
    CanonicalIsProper(part.value);
    SameIsCanonical(Canonical(part.value), found);
    CanonicalIsIdempotent(part.value);
    CanonicalIsSame(part.value, found);
  }

  lemma StoredHash(digest: Json -> Key, scope: Json, data: Json, stored: Json)
    requires Create(digest, scope, data).Ok?
    requires Proper(stored) && Same(Create(digest, scope, data).value, stored)
    ensures Get(stored, HASH) == Some(Str(HashOf(digest, scope, data)))
  {
    var fields := Create(digest, scope, data).value.fields;
    SameGet(fields, stored, |fields| - 1);
  }

  lemma StoredVersion(digest: Json -> Key, scope: Json, data: Json, stored: Json)
    requires Proper(scope) && Proper(data) && Create(digest, scope, data).Ok?
    requires Proper(stored) && Same(Create(digest, scope, data).value, stored)
    ensures Get(stored, SCHEMA_VERSION) == Some(Num(Whole(1)))
  {
    StoredPart(digest, scope, data, stored, 0);
  }

  /** A review comes back accepted from any storage that keeps its values, whatever it does to key order. */
  lemma CreatedIsAccepted(digest: Json -> Key, scope: Scope, data: Json, stored: Json)
    requires GivesHashes(digest) && Proper(data) && Create(digest, ScopeJson(scope), data).Ok?
    requires Proper(stored) && Same(Create(digest, ScopeJson(scope), data).value, stored)
    ensures AcceptsStored(digest, Some(stored), HashOf(digest, ScopeJson(scope), data), scope)
  {
    ScopeIsProper(scope);
    StoredVersion(digest, ScopeJson(scope), data, stored);
    StoredHash(digest, ScopeJson(scope), data, stored);
    StoredPart(digest, ScopeJson(scope), data, stored, 1);
    StoredPart(digest, ScopeJson(scope), data, stored, 2);
    SameIsAccepted(digest, scope, data, stored);
  }

  /** Such a copy never collides with its review, whatever the digest. */
  lemma CopyDoesNotCollide(digest: Json -> Key, scope: Scope, data: Json, stored: Json)
    requires Proper(data) && Create(digest, ScopeJson(scope), data).Ok?
    requires Proper(stored) && Same(Create(digest, ScopeJson(scope), data).value, stored)
    ensures !Collides(digest, scope, data, stored)
  {
    ScopeIsProper(scope);
    StoredPart(digest, ScopeJson(scope), data, stored, 1);
    StoredPart(digest, ScopeJson(scope), data, stored, 2);
    var scope', data' := Get(stored, SCOPE).value, Get(stored, DATA).value;
    PartsAreProper(stored, SCOPE);
    PartsAreProper(stored, DATA);
    SameIsCanonical(ScopeJson(scope), scope');
    SameIsCanonical(data, data');
    BodyCanonical(ScopeJson(scope), data, scope', data');
  }

  lemma CreatedSurvivesJsonb(digest: Json -> Key, scope: Scope, data: Json)
    requires GivesHashes(digest) && Proper(data) && Create(digest, ScopeJson(scope), data).Ok?
    ensures AcceptsStored(digest, Some(JsonbOrder(Create(digest, ScopeJson(scope), data).value)),
                          HashOf(digest, ScopeJson(scope), data), scope)
  {
    var snapshot := Create(digest, ScopeJson(scope), data).value;
    ScopeIsProper(scope);
    CreatedIsProper(digest, ScopeJson(scope), data);
    JsonbOrderIsProper(snapshot);
    JsonbOrderIsSame(snapshot);
    CreatedIsAccepted(digest, scope, data, JsonbOrder(snapshot));
  }
}
