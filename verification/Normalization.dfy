/** Naming rules and limits for the dynamic fields of an entry. */
module Normalization {
  import opened Utf8

  datatype Options = Options(maxFields: int, maxFieldValueBytes: int, maxFieldNameBytes: int)

  datatype Field = Field(key: seq<Byte>, value: seq<Byte>)

  /** The bytes of a plain ASCII text; any other character becomes a question mark. */
  function Ascii(s: string): (r: seq<Byte>)
    ensures |r| == |s|
  {
    if s == "" then [] else [if s[0] < '\U{80}' then s[0] as int as Byte else 0x3F] + Ascii(s[1..])
  }

  const CORE_NAMES: set<string> := {
    "timestamp", "message", "received_at", "hostname", "source_ip", "source_port", "peer_ip", "facility", "facility_code",
    "severity", "severity_code", "priority", "protocol", "format", "app_name", "process_id", "message_id", "source",
    "source_type", "raw_message", "parse_error", "time_source", "severity_source", "timestamp_raw", "truncated",
    "fields_dropped", "tenant"}

  /** Storage names of the core fields. */
  const CORE: set<seq<Byte>> := AllBytes(CORE_NAMES)

  function AllBytes(names: set<string>): set<seq<Byte>> { set name | name in names :: Ascii(name) }

  /** "fields.", "fields.empty" and "labels." */
  const FIELDS: seq<Byte> := [0x66, 0x69, 0x65, 0x6C, 0x64, 0x73, 0x2E]
  const FIELDS_EMPTY: seq<Byte> := FIELDS + [0x65, 0x6D, 0x70, 0x74, 0x79]
  const LABELS: seq<Byte> := [0x6C, 0x61, 0x62, 0x65, 0x6C, 0x73, 0x2E]

  /** A dynamic field may not use this name as it is. */
  predicate IsReserved(core: set<seq<Byte>>, key: seq<Byte>) {
    (key != [] && key[0] == 0x5F) || LABELS <= key || key in core
  }

  /** Names past the limit are cut and end in a tilde. */
  function Shortened(max: int, key: seq<Byte>): seq<Byte> {
    if max > 1 && |key| > max then Truncated(key, max - 1) + [0x7E] else key
  }

  function FieldName(o: Options, core: set<seq<Byte>>, key: seq<Byte>): seq<Byte> {
    var k := ToValid(key);
    if k == [] then FIELDS_EMPTY
    else
      var short := Shortened(o.maxFieldNameBytes, k);
      if IsReserved(core, short) then FIELDS + short else short
  }

  // ---- names are never reserved -----------------------------------------------------------

  predicate NoDot(s: seq<Byte>) { forall i :: 0 <= i < |s| ==> s[i] != 0x2E }

  predicate PlainName(name: string) { forall i :: 0 <= i < |name| ==> name[i] != '.' }

  lemma {:induction false} PlainHasNoDot(name: string)
    requires PlainName(name)
    ensures NoDot(Ascii(name))
  {
    if name != "" {
      PlainHasNoDot(name[1..]);
    }
  }

  lemma CoreNamesArePlain(name: string)
    requires name in CORE_NAMES
    ensures PlainName(name)
  {
  }

  predicate Undotted(core: set<seq<Byte>>) { forall name :: name in core ==> NoDot(name) }

  lemma PlainNamesAreUndotted(names: set<string>)
    requires forall name :: name in names ==> PlainName(name)
    ensures Undotted(AllBytes(names))
  {
    forall name | name in names ensures NoDot(Ascii(name)) {
      PlainHasNoDot(name);
    }
  }

  /** No core field has a dot in its name. */
  lemma CoreIsUndotted()
    ensures Undotted(CORE)
  {
    forall name | name in CORE_NAMES ensures PlainName(name) {
      CoreNamesArePlain(name);
    }
    PlainNamesAreUndotted(CORE_NAMES);
  }

  /** A name under "fields." is neither internal, nor a label, nor a core field. */
  lemma UnderFieldsIsFree(core: set<seq<Byte>>, key: seq<Byte>)
    requires Undotted(core) && FIELDS <= key
    ensures !IsReserved(core, key)
  {
    assert key[0] == FIELDS[0] && key[6] == FIELDS[6];
  }

  // ---- names are valid and bounded ----------------------------------------------------------

  predicate AllAscii(s: seq<Byte>) { forall i :: 0 <= i < |s| ==> s[i] < 0x80 }

  lemma {:induction false} AsciiIsValid(s: seq<Byte>)
    requires AllAscii(s)
    ensures Valid(s)
  {
    if s != [] {
      AsciiIsValid(s[1..]);
    }
  }

  lemma ShortenedIsValid(max: int, k: seq<Byte>)
    requires Valid(k) && k != []
    ensures Valid(Shortened(max, k)) && Shortened(max, k) != []
    ensures max > 1 ==> |Shortened(max, k)| <= max
  {
    if max > 1 && |k| > max {
      TruncatedIsLongest(k, max - 1);
      AsciiIsValid([0x7E]);
      JoinValid(Truncated(k, max - 1), [0x7E]);
    }
  }

  lemma MovedIsValid(prefix: seq<Byte>, short: seq<Byte>)
    requires AllAscii(prefix) && Valid(short)
    ensures Valid(prefix + short)
  {
    AsciiIsValid(prefix);
    JoinValid(prefix, short);
  }

  lemma PrefixesAreAscii()
    ensures AllAscii(FIELDS) && |FIELDS| == 7 && AllAscii(FIELDS_EMPTY) && |FIELDS_EMPTY| == 12
  {
  }

  lemma NonEmptyName(o: Options, core: set<seq<Byte>>, k: seq<Byte>)
    requires Undotted(core) && Valid(k) && k != []
    ensures var short := Shortened(o.maxFieldNameBytes, k);
      var name := if IsReserved(core, short) then FIELDS + short else short;
      && name != [] && Valid(name) && !IsReserved(core, name)
      && (o.maxFieldNameBytes > 1 ==> |name| <= o.maxFieldNameBytes + 7)
  {
    var short := Shortened(o.maxFieldNameBytes, k);
    ShortenedIsValid(o.maxFieldNameBytes, k);
    PrefixesAreAscii();
    MovedIsValid(FIELDS, short);
    UnderFieldsIsFree(core, FIELDS + short);
  }

  lemma EmptyName(core: set<seq<Byte>>)
    requires Undotted(core)
    ensures Valid(FIELDS_EMPTY) && !IsReserved(core, FIELDS_EMPTY) && |FIELDS_EMPTY| == 12
  {
    PrefixesAreAscii();
    AsciiIsValid(FIELDS_EMPTY);
    UnderFieldsIsFree(core, FIELDS_EMPTY);
  }

  /**
   For every key the name is valid, non-empty and not reserved. With a limit
   above one byte it is at most seven bytes longer than the limit, unless the
   key is empty and the limit is too small for "fields.empty".
   */
  lemma FieldNameIsUsable(o: Options, core: set<seq<Byte>>, key: seq<Byte>)
    requires Undotted(core)
    ensures FieldName(o, core, key) != [] && Valid(FieldName(o, core, key)) && !IsReserved(core, FieldName(o, core, key))
    ensures o.maxFieldNameBytes > 1 ==>
      (|FieldName(o, core, key)| <= o.maxFieldNameBytes + 7 <==> key != [] || o.maxFieldNameBytes >= 5)
  {
    ToValidRepairs(key);
    if ToValid(key) == [] {
      EmptyName(core);
    } else {
      NonEmptyName(o, core, ToValid(key));
    }
  }

  /** With the actual core fields, no key ends up with a reserved name. */
  lemma NoNameIsReserved(o: Options, key: seq<Byte>)
    ensures !IsReserved(CORE, FieldName(o, CORE, key))
  {
    CoreIsUndotted();
    FieldNameIsUsable(o, CORE, key);
  }

  lemma {:induction false} AsciiIs(s: string, b: seq<Byte>)
    requires |s| == |b| && forall i :: 0 <= i < |s| ==> s[i] < '\U{80}' && s[i] as int == b[i] as int
    ensures Ascii(s) == b
  {
    if s != "" {
      AsciiIs(s[1..], b[1..]);
    }
  }

  lemma PrefixesSpelled()
    ensures Ascii("_") == [0x5F] && Ascii("labels.") == LABELS && Ascii("fields.") == FIELDS
  {
    AsciiIs("_", [0x5F]);
    AsciiIs("labels.", LABELS);
    AsciiIs("fields.", FIELDS);
  }

  /** Nothing about the key is reserved: no underscore first, not a label, not one of the names. */
  ghost predicate Free(names: set<string>, key: seq<Byte>) {
    && !(Ascii("_") <= key)
    && !(Ascii("labels.") <= key)
    && forall name :: name in names ==> key != Ascii(name)
  }

  lemma FreeIsNotReserved(names: set<string>, key: seq<Byte>)
    ensures IsReserved(AllBytes(names), key) <==> !Free(names, key)
  {
    PrefixesSpelled();
    if key in AllBytes(names) {
      var name :| name in names && key == Ascii(name);
    }
  }

  /** A key that needs no repair and no cut. */
  predicate Fits(o: Options, key: seq<Byte>) {
    Valid(key) && key != [] && (o.maxFieldNameBytes <= 1 || |key| <= o.maxFieldNameBytes)
  }

  lemma FittingName(o: Options, core: set<seq<Byte>>, key: seq<Byte>)
    requires Fits(o, key)
    ensures FieldName(o, core, key) == if IsReserved(core, key) then FIELDS + key else key
  {
    ToValidRepairs(key);
  }

  /**
   A valid key within the limit keeps its name if it is free and moves below
   "fields." if it is not; and the name of any key at all is free.
   */
  lemma FreeKeysKeepTheirName(o: Options, key: seq<Byte>)
    ensures Free(CORE_NAMES, FieldName(o, CORE, key))
    ensures Fits(o, key) ==> FieldName(o, CORE, key) == if Free(CORE_NAMES, key) then key else Ascii("fields.") + key
  {
    NoNameIsReserved(o, key);
    NamedFrom(o, CORE_NAMES, key);
  }

  lemma NamedFrom(o: Options, names: set<string>, key: seq<Byte>)
    requires !IsReserved(AllBytes(names), FieldName(o, AllBytes(names), key))
    ensures Free(names, FieldName(o, AllBytes(names), key))
    ensures Fits(o, key) ==> FieldName(o, AllBytes(names), key) == if Free(names, key) then key else Ascii("fields.") + key
  {
    FreeIsNotReserved(names, FieldName(o, AllBytes(names), key));
    FreeIsNotReserved(names, key);
    PrefixesSpelled();
    if Fits(o, key) {
      FittingName(o, AllBytes(names), key);
    }
  }

  // ---- the fields of an entry -----------------------------------------------------------------

  predicate TooLong(o: Options, value: seq<Byte>) { o.maxFieldValueBytes > 0 && |ToValid(value)| > o.maxFieldValueBytes }

  function Limited(o: Options, value: seq<Byte>): seq<Byte> {
    if TooLong(o, value) then Truncated(ToValid(value), o.maxFieldValueBytes) else ToValid(value)
  }

  /** A value is repaired and, past the limit, cut to the longest valid prefix that fits. */
  lemma LimitedValue(o: Options, value: seq<Byte>)
    ensures Valid(Limited(o, value))
    ensures o.maxFieldValueBytes > 0 ==> LongestValidPrefix(ToValid(value), o.maxFieldValueBytes, Limited(o, value))
    ensures o.maxFieldValueBytes <= 0 ==> Limited(o, value) == ToValid(value)
  {
    ToValidRepairs(value);
    if o.maxFieldValueBytes > 0 {
      TruncatedIsLongest(ToValid(value), o.maxFieldValueBytes);
    }
  }

  /** An entry is marked for a value that does not appear in full, and for no other. */
  lemma MarkedIffCut(o: Options, value: seq<Byte>)
    ensures TooLong(o, value) <==> Limited(o, value) != ToValid(value)
  {
    ToValidRepairs(value);
    if TooLong(o, value) {
      TruncatedIsLongest(ToValid(value), o.maxFieldValueBytes);
    }
  }

  function Renamed(o: Options, core: set<seq<Byte>>, f: Field): Field { Field(FieldName(o, core, f.key), Limited(o, f.value)) }

  method Rename(o: Options, core: set<seq<Byte>>, f: Field) returns (g: Field, cut: bool)
    ensures g == Renamed(o, core, f) && cut == TooLong(o, f.value)
  {
    var value := ToValid(f.value);
    cut := o.maxFieldValueBytes > 0 && |value| > o.maxFieldValueBytes;
    if cut {
      value := TruncateUtf8(value, o.maxFieldValueBytes);
    }
    g := Field(FieldName(o, core, f.key), value);
  }

  class Entry {
    var fields: seq<Field>
    var fieldsDropped: int
    var truncated: bool

    constructor (fields: seq<Field>)
      ensures this.fields == fields && fieldsDropped == 0 && !truncated
    {
      this.fields, fieldsDropped, truncated := fields, 0, false;
    }
  }

  /** How many fields of an entry are kept. */
  function KeptFields(o: Options, n: nat): nat { if o.maxFields > 0 && n > o.maxFields then o.maxFields else n }

  /**
   Keeps the first fields up to the limit, renames and limits each, counts the
   others as dropped, and marks the entry when a value was cut.
   */
  method ApplyFields(o: Options, core: set<seq<Byte>>, e: Entry)
    modifies e
    ensures |e.fields| == KeptFields(o, |old(e.fields)|)
    ensures o.maxFields > 0 ==> |e.fields| <= o.maxFields
    ensures o.maxFields <= 0 || |old(e.fields)| <= o.maxFields ==> |e.fields| == |old(e.fields)|
    ensures |e.fields| + (e.fieldsDropped - old(e.fieldsDropped)) == |old(e.fields)|
    ensures forall i :: 0 <= i < |e.fields| ==> e.fields[i] == Renamed(o, core, old(e.fields)[i])
    ensures e.truncated <==> old(e.truncated) || exists i :: 0 <= i < |e.fields| && TooLong(o, old(e.fields)[i].value)
  {
    ghost var was := e.fields;
    if o.maxFields > 0 && |e.fields| > o.maxFields {
      e.fieldsDropped := e.fieldsDropped + |e.fields| - o.maxFields;
      e.fields := e.fields[..o.maxFields];
    }
    for i := 0 to |e.fields|
      invariant |e.fields| == KeptFields(o, |was|) && e.fieldsDropped == old(e.fieldsDropped) + |was| - |e.fields|
      invariant forall j :: 0 <= j < i ==> e.fields[j] == Renamed(o, core, was[j])
      invariant forall j :: i <= j < |e.fields| ==> e.fields[j] == was[j]
      invariant e.truncated <==> old(e.truncated) || exists j :: 0 <= j < i && TooLong(o, was[j].value)
    {
      var g, cut := Rename(o, core, e.fields[i]);
      e.fields := e.fields[i := g];
      if cut {
        e.truncated := true;
      }
    }
  }
}
