/**
 * The CRM update set built by `update_salesforce_lead` in both worker files,
 * once the CRM call at its end is taken off: which fields of the extraction
 * are written, under which keys, and what metadata goes with them.
 */
module UpdatePolicy {
  import opened PyValues

  /** The worker file being modelled: enrichment_worker.py or enrichment_worker_ecs_optimized.py. */
  datatype Variant = Standard | EcsOptimized

  /** The Python exceptions the builder can raise before the update is issued. */
  datatype Exception = AttributeError | TypeError

  /**
   * The "address" entry of the model's answer: absent, present but not a
   * dict (None, a string, a list, ...), or a dict whose missing keys read
   * as None through `.get`.
   */
  datatype AddressEntry =
    | NoAddress
    | NotADict(v: Value)
    | AddressDict(street: Value, city: Value, state: Value, postalCode: Value, country: Value)

  /**
   * The parsed answer of the extraction model. A missing name key reads as
   * None; `confidence` is None when the key is absent.
   */
  datatype Extraction = Extraction(firstName: Value, lastName: Value, address: AddressEntry, confidence: Option<Value>)

  /** The lead fields that are mirrored into a standard and an enriched CRM field. */
  datatype Field = FirstName | LastName | Street | City | State | PostalCode | Country

  /** The keys of the update map. */
  datatype Key =
    | StandardField(field: Field)
    | EnrichedField(field: Field)
    | FullAddress
    | EnrichmentDate
    | EnrichmentConfidence
    | EnrichmentSource
    | EnrichmentCompleted

  /** The CRM API name written for each key. */
  function ApiName(k: Key): string {
    match k
    case StandardField(f) =>
      (match f
       case FirstName => "FirstName"
       case LastName => "LastName"
       case Street => "Street"
       case City => "City"
       case State => "State"
       case PostalCode => "PostalCode"
       case Country => "Country")
    case EnrichedField(f) =>
      (match f
       case FirstName => "Enriched_First_Name__c"
       case LastName => "Enriched_Last_Name__c"
       case Street => "Enriched_Street__c"
       case City => "Enriched_City__c"
       case State => "Enriched_State__c"
       case PostalCode => "Enriched_Postal_Code__c"
       case Country => "Enriched_Country__c")
    case FullAddress => "Enriched_Full_Address__c"
    case EnrichmentDate => "Enrichment_Date__c"
    case EnrichmentConfidence => "Enrichment_Confidence__c"
    case EnrichmentSource => "Enrichment_Source__c"
    case EnrichmentCompleted => "Enrichment_Completed__c"
  }

  const SourceTag := "AI_Web_Scraping"

  const Fields: set<Field> := {FirstName, LastName, Street, City, State, PostalCode, Country}

  const AllKeys: set<Key> :=
    (set f | f in Fields :: StandardField(f)) + (set f | f in Fields :: EnrichedField(f))
    + {FullAddress, EnrichmentDate, EnrichmentConfidence, EnrichmentSource, EnrichmentCompleted}

  /** The address components in the order they are checked and joined. */
  const AddressFields: seq<Field> := [Street, City, State, PostalCode, Country]

  // ---------------------------------------------------------------------
  // The filters

  /** The placeholder answers `is_valid_value` refuses, after lowering and stripping. */
  const Placeholders: seq<string> := ["not found", "unknown", "n/a", "none", "null", ""]

  /**
   * `is_valid_value` of enrichment_worker.py: nothing falsy passes, every
   * truthy non-string passes, and a string passes unless it is a
   * placeholder once lowered and stripped.
   */
  predicate IsValidValue(v: Value)
    ensures IsValidValue(v) ==> Truthy(v)
    ensures !v.Str? ==> (IsValidValue(v) <==> Truthy(v))
  {
    Truthy(v) && (v.Str? ==> Strip(Lower(v.s)) !in Placeholders)
  }

  /** The name test of the ECS file: truthy and `value.lower() != 'not found'`; only a non-empty string passes. */
  predicate EcsNameKept(v: Value)
    ensures EcsNameKept(v) ==> v.Str? && v.s != ""
    ensures EcsNameKept(v) ==> !EcsNameRaises(v)
  {
    Truthy(v) && v.Str? && Lower(v.s) != "not found"
  }

  /** A truthy name that is not a string has no `.lower()`: the ECS name test raises. */
  predicate EcsNameRaises(v: Value) {
    Truthy(v) && !v.Str?
  }

  predicate IsName(f: Field) {
    f == FirstName || f == LastName
  }

  /** Whether the variant writes field `f` when its candidate value is `v`; no variant writes a falsy value. */
  predicate Kept(variant: Variant, f: Field, v: Value)
    ensures Kept(variant, f, v) ==> Truthy(v)
  {
    match variant
    case Standard => IsValidValue(v)
    case EcsOptimized => if IsName(f) then EcsNameKept(v) else Truthy(v)
  }

  // ---------------------------------------------------------------------
  // The candidate values

  datatype AddressParts = AddressParts(street: Value, city: Value, state: Value, postalCode: Value, country: Value)

  const NoParts := AddressParts(Null, Null, Null, Null, Null)

  /**
   * The address dict the builder reads components from:
   * `extracted_info.get('address') or {}` in the standard file,
   * `extracted_info.get('address', {})` in the ECS file. Calling `.get` on
   * anything but a dict raises AttributeError.
   */
  function ResolveAddress(variant: Variant, a: AddressEntry): (r: Result<AddressParts, Exception>)
    ensures r.Err? ==> r == Err(AttributeError)
    ensures r.Err? <==> a.NotADict? && (variant.EcsOptimized? || Truthy(a.v))
    ensures r.Ok? && !a.AddressDict? ==> r.value == NoParts
  {
    match a
    case NoAddress => Ok(NoParts)
    case NotADict(v) => if variant == Standard && !Truthy(v) then Ok(NoParts) else Err(AttributeError)
    case AddressDict(s, c, st, p, co) => Ok(AddressParts(s, c, st, p, co))
  }

  function Candidate(info: Extraction, parts: AddressParts, f: Field): Value {
    match f
    case FirstName => info.firstName
    case LastName => info.lastName
    case Street => parts.street
    case City => parts.city
    case State => parts.state
    case PostalCode => parts.postalCode
    case Country => parts.country
  }

  /** The one-element list of `v` when the variant keeps it, else the empty list. */
  function KeepIf(variant: Variant, f: Field, v: Value): seq<Value> {
    if Kept(variant, f, v) then [v] else []
  }

  /** The components that pass the filter, in the order street, city, state, postal code, country. */
  function KeptParts(variant: Variant, a: AddressParts): seq<Value> {
    KeepIf(variant, Street, a.street) + KeepIf(variant, City, a.city) + KeepIf(variant, State, a.state)
    + KeepIf(variant, PostalCode, a.postalCode) + KeepIf(variant, Country, a.country)
  }

  predicate AllStr(vs: seq<Value>) {
    forall i :: 0 <= i < |vs| ==> vs[i].Str?
  }

  function Texts(vs: seq<Value>): (r: seq<string>)
    requires AllStr(vs)
    ensures |r| == |vs|
  {
    seq(|vs|, i requires 0 <= i < |vs| => vs[i].s)
  }

  // ---------------------------------------------------------------------
  // The update set

  function FieldKeys(fs: set<Field>): set<Key> {
    (set f | f in fs :: StandardField(f)) + (set f | f in fs :: EnrichedField(f))
  }

  /** The standard and enriched keys of the fields in `fs` that pass the filter, each holding its candidate. */
  function FieldWrites(variant: Variant, info: Extraction, a: AddressParts, fs: set<Field>): map<Key, Value> {
    map k | k in FieldKeys(fs) && Kept(variant, k.field, Candidate(info, a, k.field)) :: Candidate(info, a, k.field)
  }

  /** Adds the full address (when a component passed) and the four metadata keys. */
  function WithMetadata(fields: map<Key, Value>, info: Extraction, kept: seq<Value>, stamp: string): map<Key, Value>
    requires AllStr(kept)
  {
    var full := if kept != [] then fields[FullAddress := Str(Join(", ", Texts(kept)))] else fields;
    full[EnrichmentDate := Str(stamp)][EnrichmentConfidence := info.confidence.GetOr(Int(0))]
        [EnrichmentSource := Str(SourceTag)][EnrichmentCompleted := Bool(true)]
  }

  /**
   * The update map, or the exception raised while building it. Every key
   * whose field passes the variant's filter is present with the candidate
   * value; the full address is present when a component passes; metadata
   * is always present. `stamp` is the formatted current time.
   */
  function UpdateData(variant: Variant, info: Extraction, stamp: string): Result<map<Key, Value>, Exception> {
    if variant == EcsOptimized && (EcsNameRaises(info.firstName) || EcsNameRaises(info.lastName)) then
      Err(AttributeError)
    else
      match ResolveAddress(variant, info.address)
      case Err(e) => Err(e)
      case Ok(parts) =>
        var kept := KeptParts(variant, parts);
        if !AllStr(kept) then Err(TypeError)
        else Ok(WithMetadata(FieldWrites(variant, info, parts, Fields), info, kept, stamp))
  }

  /** Writes the standard field and its enriched twin when the candidate passes the filter. */
  function Mirror(update: map<Key, Value>, variant: Variant, f: Field, v: Value): map<Key, Value> {
    if Kept(variant, f, v) then update[EnrichedField(f) := v][StandardField(f) := v] else update
  }

  /** `address_parts.append(...)` when the component passes the filter. */
  function AppendKept(parts: seq<Value>, variant: Variant, f: Field, v: Value): seq<Value> {
    parts + KeepIf(variant, f, v)
  }

  /** One more mirrored write extends the field writes by that field. */
  lemma MirrorStep(variant: Variant, info: Extraction, a: AddressParts, fs: set<Field>, f: Field)
    ensures Mirror(FieldWrites(variant, info, a, fs), variant, f, Candidate(info, a, f))
            == FieldWrites(variant, info, a, fs + {f})
  {
    var before := FieldWrites(variant, info, a, fs);
    var after := FieldWrites(variant, info, a, fs + {f});
    var m := Mirror(before, variant, f, Candidate(info, a, f));
    forall k
      ensures (k in m <==> k in after) && (k in m ==> m[k] == after[k])
    {
      if k.StandardField? || k.EnrichedField? {
        assert k in FieldKeys(fs + {f}) <==> k.field in fs + {f};
        assert k in FieldKeys(fs) <==> k.field in fs;
      }
    }
  }

  /** The order in which `update_salesforce_lead` writes the fields. */
  const FieldOrder: seq<Field> := [FirstName, LastName, Street, City, State, PostalCode, Country]

  /** The update after the first `n` mirrored writes, in the order `update_salesforce_lead` writes them. */
  function Writes(variant: Variant, info: Extraction, a: AddressParts, n: nat): map<Key, Value>
    requires n <= |FieldOrder|
  {
    if n == 0 then map[]
    else Mirror(Writes(variant, info, a, n - 1), variant, FieldOrder[n - 1], Candidate(info, a, FieldOrder[n - 1]))
  }

  /** The fields written by the first `n` steps. */
  function FieldsUpTo(n: nat): set<Field>
    requires n <= |FieldOrder|
  {
    set i | 0 <= i < n :: FieldOrder[i]
  }

  /** After the first `n` steps the update holds exactly the field writes of those fields. */
  lemma {:induction false} WritesAgree(variant: Variant, info: Extraction, a: AddressParts, n: nat)
    requires n <= |FieldOrder|
    ensures Writes(variant, info, a, n) == FieldWrites(variant, info, a, FieldsUpTo(n))
  {
    if n == 0 {
      assert FieldsUpTo(0) == {};
      assert FieldWrites(variant, info, a, {}) == map[];
    } else {
      WritesAgree(variant, info, a, n - 1);
      assert FieldsUpTo(n) == FieldsUpTo(n - 1) + {FieldOrder[n - 1]};
      MirrorStep(variant, info, a, FieldsUpTo(n - 1), FieldOrder[n - 1]);
    }
  }

  lemma AllFieldsWritten()
    ensures FieldsUpTo(|FieldOrder|) == Fields
  {
    forall f | f in Fields ensures f in FieldsUpTo(|FieldOrder|) {
      match f
      case FirstName => assert FieldOrder[0] == f;
      case LastName => assert FieldOrder[1] == f;
      case Street => assert FieldOrder[2] == f;
      case City => assert FieldOrder[3] == f;
      case State => assert FieldOrder[4] == f;
      case PostalCode => assert FieldOrder[5] == f;
      case Country => assert FieldOrder[6] == f;
    }
  }

  /** The `address_parts` list: each component appended when it passes the filter. */
  method CollectAddressParts(variant: Variant, a: AddressParts) returns (parts: seq<Value>)
    ensures parts == KeptParts(variant, a)
  {
    parts := [];
    parts := AppendKept(parts, variant, Street, a.street);
    parts := AppendKept(parts, variant, City, a.city);
    parts := AppendKept(parts, variant, State, a.state);
    parts := AppendKept(parts, variant, PostalCode, a.postalCode);
    parts := AppendKept(parts, variant, Country, a.country);
  }

  /** The five address components mirrored after the two names: the update then holds every field write. */
  method MirrorAddress(variant: Variant, info: Extraction, a: AddressParts, names: map<Key, Value>)
    returns (update: map<Key, Value>)
    requires names == Writes(variant, info, a, 2)
    ensures update == FieldWrites(variant, info, a, Fields)
  {
    update := Mirror(names, variant, Street, a.street);
    assert update == Writes(variant, info, a, 3);
    update := Mirror(update, variant, City, a.city);
    assert update == Writes(variant, info, a, 4);
    update := Mirror(update, variant, State, a.state);
    assert update == Writes(variant, info, a, 5);
    update := Mirror(update, variant, PostalCode, a.postalCode);
    assert update == Writes(variant, info, a, 6);
    update := Mirror(update, variant, Country, a.country);
    assert update == Writes(variant, info, a, 7);
    WritesAgree(variant, info, a, 7);
    AllFieldsWritten();
  }

  /**
   * `update_salesforce_lead` up to the CRM call: fills `update_data` field by
   * field and `address_parts` component by component, as `update_salesforce_lead` does.
   */
  method BuildUpdateData(variant: Variant, info: Extraction, stamp: string)
    returns (r: Result<map<Key, Value>, Exception>)
    ensures r == UpdateData(variant, info, stamp)
  {
    var update: map<Key, Value> := map[];
    if variant == EcsOptimized && EcsNameRaises(info.firstName) {
      return Err(AttributeError);
    }
    update := Mirror(update, variant, FirstName, info.firstName);
    if variant == EcsOptimized && EcsNameRaises(info.lastName) {
      return Err(AttributeError);
    }
    update := Mirror(update, variant, LastName, info.lastName);

    var resolved := ResolveAddress(variant, info.address);
    if resolved.Err? {
      return Err(resolved.error);
    }
    var a := resolved.value;
    assert Writes(variant, info, a, 1) == Mirror(map[], variant, FirstName, info.firstName);
    assert update == Writes(variant, info, a, 2);
    update := MirrorAddress(variant, info, a, update);
    ghost var fields := update;

    var addressParts := CollectAddressParts(variant, a);
    if addressParts != [] {
      if !AllStr(addressParts) {
        return Err(TypeError);
      }
      update := update[FullAddress := Str(Join(", ", Texts(addressParts)))];
    }
    update := update[EnrichmentDate := Str(stamp)];
    update := update[EnrichmentConfidence := info.confidence.GetOr(Int(0))];
    update := update[EnrichmentSource := Str(SourceTag)];
    update := update[EnrichmentCompleted := Bool(true)];
    assert update == WithMetadata(fields, info, addressParts, stamp);
    r := Ok(update);
  }

  // ---------------------------------------------------------------------
  // Properties of the update set

  /** The address components the builder reads, or the exception it raises reading them. */
  function PartsOf(variant: Variant, info: Extraction): AddressParts {
    match ResolveAddress(variant, info.address)
    case Ok(parts) => parts
    case Err(_) => NoParts
  }

  /**
   * A field's standard key and its enriched twin are both written exactly
   * when the candidate passes the variant's filter, and both hold the
   * candidate.
   */
  lemma UpdateFields(variant: Variant, info: Extraction, stamp: string, m: map<Key, Value>, f: Field)
    requires UpdateData(variant, info, stamp) == Ok(m)
    ensures StandardField(f) in m <==> Kept(variant, f, Candidate(info, PartsOf(variant, info), f))
    ensures EnrichedField(f) in m <==> StandardField(f) in m
    ensures StandardField(f) in m ==>
              m[StandardField(f)] == m[EnrichedField(f)] == Candidate(info, PartsOf(variant, info), f)
  {
    var parts := PartsOf(variant, info);
    var fields := FieldWrites(variant, info, parts, Fields);
    assert m == WithMetadata(fields, info, KeptParts(variant, parts), stamp);
    FieldWritesHold(variant, info, parts, f);
    MetadataKeepsFields(fields, info, KeptParts(variant, parts), stamp, StandardField(f));
    MetadataKeepsFields(fields, info, KeptParts(variant, parts), stamp, EnrichedField(f));
  }

  /** The field writes hold a field's two keys exactly when its candidate is kept, both with the candidate. */
  lemma FieldWritesHold(variant: Variant, info: Extraction, a: AddressParts, f: Field)
    ensures var w := FieldWrites(variant, info, a, Fields);
            && (StandardField(f) in w <==> Kept(variant, f, Candidate(info, a, f)))
            && (EnrichedField(f) in w <==> Kept(variant, f, Candidate(info, a, f)))
            && (StandardField(f) in w ==> w[StandardField(f)] == w[EnrichedField(f)] == Candidate(info, a, f))
  {
    assert StandardField(f) in FieldKeys(Fields);
    assert EnrichedField(f) in FieldKeys(Fields);
  }

  /** The full address and the metadata never overwrite a field key. */
  lemma MetadataKeepsFields(fields: map<Key, Value>, info: Extraction, kept: seq<Value>, stamp: string, k: Key)
    requires AllStr(kept) && (k.StandardField? || k.EnrichedField?)
    ensures k in WithMetadata(fields, info, kept, stamp) <==> k in fields
    ensures k in fields ==> WithMetadata(fields, info, kept, stamp)[k] == fields[k]
  {
  }

  /**
   * The full address is written exactly when some component passed the
   * filter, as their texts joined by ", "; the four metadata keys are
   * always written.
   */
  lemma UpdateExtras(variant: Variant, info: Extraction, stamp: string, m: map<Key, Value>)
    requires UpdateData(variant, info, stamp) == Ok(m)
    ensures ResolveAddress(variant, info.address).Ok?
    ensures var kept := KeptParts(variant, PartsOf(variant, info));
            AllStr(kept) && (FullAddress in m <==> kept != [])
            && (FullAddress in m ==> m[FullAddress] == Str(Join(", ", Texts(kept))))
    ensures EnrichmentDate in m && m[EnrichmentDate] == Str(stamp)
    ensures EnrichmentConfidence in m && m[EnrichmentConfidence] == info.confidence.GetOr(Int(0))
    ensures EnrichmentSource in m && m[EnrichmentSource] == Str(SourceTag)
    ensures EnrichmentCompleted in m && m[EnrichmentCompleted] == Bool(true)
  {
    assert FullAddress !in FieldWrites(variant, info, PartsOf(variant, info), Fields);
  }

  /** No key outside the mirrored fields, the full address and the metadata is written. */
  lemma UpdateKeysBounded(variant: Variant, info: Extraction, stamp: string, m: map<Key, Value>)
    requires UpdateData(variant, info, stamp) == Ok(m)
    ensures m.Keys <= AllKeys
  {
    forall k | k in m ensures k in AllKeys {
      if k.StandardField? || k.EnrichedField? {
        assert k.field in Fields;
      }
    }
  }

  /** The metadata keys make every successful update non-empty: the CRM call is always issued. */
  lemma UpdateNeverEmpty(variant: Variant, info: Extraction, stamp: string, m: map<Key, Value>)
    requires UpdateData(variant, info, stamp) == Ok(m)
    ensures |m| >= 4
  {
    UpdateExtras(variant, info, stamp, m);
    var meta := {EnrichmentDate, EnrichmentConfidence, EnrichmentSource, EnrichmentCompleted};
    assert meta <= m.Keys;
    assert |meta| == 4;
    SubsetCard(meta, m.Keys);
  }

  lemma {:induction false} SubsetCard<T>(a: set<T>, b: set<T>)
    requires a <= b
    ensures |a| <= |b|
    decreases |a|
  {
    if a != {} {
      var x :| x in a;
      SubsetCard(a - {x}, b - {x});
    }
  }

  /**
   * When the builder raises: a truthy non-string name in the ECS file
   * (AttributeError), an address entry that is not a dict and not a falsy
   * value the standard file replaces by `{}` (AttributeError), or a kept
   * address component that is not a string, which `', '.join` refuses
   * (TypeError). Nothing else fails.
   */
  lemma UpdateFailure(variant: Variant, info: Extraction, stamp: string)
    ensures UpdateData(variant, info, stamp).Err?
            <==> (variant == EcsOptimized && (EcsNameRaises(info.firstName) || EcsNameRaises(info.lastName)))
                 || (info.address.NotADict? && !(variant == Standard && !Truthy(info.address.v)))
                 || !AllStr(KeptParts(variant, PartsOf(variant, info)))
    ensures UpdateData(variant, info, stamp) == Err(TypeError)
            ==> !AllStr(KeptParts(variant, PartsOf(variant, info)))
  {
  }

  /** Lowering leaves whitespace alone. */
  lemma LowerSpace(s: string)
    requires AllSpace(s)
    ensures Lower(s) == s
  {
  }

  lemma LowerConcat(a: string, b: string, c: string)
    ensures Lower(a + b + c) == Lower(a) + Lower(b) + Lower(c)
  {
  }

  /**
   * Any capitalisation of a placeholder, padded with whitespace on both
   * sides, is refused by `is_valid_value`.
   */
  lemma PaddedPlaceholderRejected(pre: string, word: string, post: string)
    requires AllSpace(pre) && AllSpace(post)
    requires Lower(word) in Placeholders
    ensures !IsValidValue(Str(pre + word + post))
  {
    LowerConcat(pre, word, post);
    LowerSpace(pre);
    LowerSpace(post);
    var core := Lower(word);
    assert core == [] || (!IsSpace(core[0]) && !IsSpace(core[|core| - 1]));
    StripPadded(pre, core, post);
  }

  /** A padded placeholder written in capitals: the standard filter drops it. */
  lemma ShoutedPlaceholderRejected()
    ensures !IsValidValue(Str("  N/A\t"))
  {
    assert Lower("N/A") == "n/a";
    assert "  N/A\t" == "  " + "N/A" + "\t";
    PaddedPlaceholderRejected("  ", "N/A", "\t");
  }

  lemma LowerJane()
    ensures Lower("Jane") == "jane"
  {
    var l := Lower("Jane");
    assert l[0] == 'j' && l[1] == 'a' && l[2] == 'n' && l[3] == 'e';
  }

  lemma LowerUnknown()
    ensures Lower("Unknown") == "unknown"
  {
    var l := Lower("Unknown");
    assert l[0] == 'u' && l[1] == 'n' && l[2] == 'k' && l[3] == 'n' && l[4] == 'o' && l[5] == 'w' && l[6] == 'n';
  }

  /** Falsy values are dropped; a real name is kept. */
  lemma ValidValueExamples()
    ensures !IsValidValue(Null) && !IsValidValue(Str("")) && !IsValidValue(Int(0)) && !IsValidValue(Bool(false))
    ensures IsValidValue(Str("Jane"))
  {
    LowerJane();
    StripPadded("", "jane", "");
    assert "" + "jane" + "" == "jane";
    assert "jane" !in Placeholders;
  }

  /**
   * The ECS name filter compares the lowered value against "not found" only:
   * "Unknown" is written by the ECS worker and refused by the standard one.
   */
  lemma EcsKeepsPlaceholderNames()
    ensures Kept(EcsOptimized, FirstName, Str("Unknown"))
    ensures !Kept(Standard, FirstName, Str("Unknown"))
  {
    LowerUnknown();
    PaddedPlaceholderRejected("", "Unknown", "");
    assert "" + "Unknown" + "" == "Unknown";
  }

  /**
   * An address reported as `null`: the standard file falls back to `{}` and
   * writes no address field, the ECS file calls `.get` on None and raises.
   */
  lemma NullAddressHandling(info: Extraction, stamp: string)
    requires info.address == NotADict(Null)
    requires !EcsNameRaises(info.firstName) && !EcsNameRaises(info.lastName)
    ensures UpdateData(EcsOptimized, info, stamp) == Err(AttributeError)
    ensures var r := UpdateData(Standard, info, stamp);
            r.Ok? && FullAddress !in r.value && StandardField(Street) !in r.value
  {
    var r := UpdateData(Standard, info, stamp);
    assert KeptParts(Standard, NoParts) == [];
    UpdateExtras(Standard, info, stamp, r.value);
    UpdateFields(Standard, info, stamp, r.value, Street);
  }

  /** A postal code given as a number passes both filters and makes the join raise TypeError. */
  lemma NumericPostalCodeAborts(variant: Variant, info: Extraction, stamp: string)
    requires info.address.AddressDict? && info.address.postalCode == Int(12345)
    requires !EcsNameRaises(info.firstName) && !EcsNameRaises(info.lastName)
    ensures UpdateData(variant, info, stamp) == Err(TypeError)
  {
    var kept := KeptParts(variant, PartsOf(variant, info));
    var before := KeepIf(variant, Street, info.address.street) + KeepIf(variant, City, info.address.city)
                  + KeepIf(variant, State, info.address.state);
    assert kept[|before|] == Int(12345);
  }
}
