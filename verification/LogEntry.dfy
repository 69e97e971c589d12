/**
 A normalized log entry and the size the byte budgets count for it. Texts are
 byte strings here: a length is a number of bytes.
 */
module LogEntry {

  datatype Field = Field(key: string, value: string)

  datatype Entry = Entry(
    message: string,
    raw: string,
    hostname: string,
    appName: string,
    processId: string,
    messageId: string,
    source: string,
    parseError: string,
    timestampRaw: string,
    tenant: string,
    severity: int,
    labels: seq<Field>,
    fields: seq<Field>)

  function LabelBytes(labels: seq<Field>): nat {
    if labels == [] then 0
    else LabelBytes(labels[..|labels| - 1]) + |labels[|labels| - 1].key| + |labels[|labels| - 1].value| + 16
  }

  function FieldBytes(fields: seq<Field>): nat {
    if fields == [] then 0
    else FieldBytes(fields[..|fields| - 1]) + |fields[|fields| - 1].key| + |fields[|fields| - 1].value| * 11 / 10 + 6
  }

  function FixedBytes(e: Entry): nat {
    400 + |e.message| * 11 / 10 + |e.raw| * 11 / 10 + |e.hostname| + |e.appName|
    + |e.processId| + |e.messageId| + |e.source| + |e.parseError| + |e.timestampRaw|
  }

  /** The approximate encoded size. The tenant is not part of it. */
  function EstimatedSize(e: Entry): (n: nat)
    ensures n >= 400
  {
    FixedBytes(e) + LabelBytes(e.labels) + FieldBytes(e.fields)
  }

  method EstimateSize(e: Entry) returns (n: nat)
    ensures n == EstimatedSize(e)
  {
    n := 400 + |e.message| * 11 / 10 + |e.raw| * 11 / 10 + |e.hostname| + |e.appName|
      + |e.processId| + |e.messageId| + |e.source| + |e.parseError| + |e.timestampRaw|;
    for i := 0 to |e.labels|
      invariant n == FixedBytes(e) + LabelBytes(e.labels[..i])
    {
      assert e.labels[..i + 1][..i] == e.labels[..i];
      n := n + |e.labels[i].key| + |e.labels[i].value| + 16;
    }
    assert e.labels[..|e.labels|] == e.labels;
    for i := 0 to |e.fields|
      invariant n == FixedBytes(e) + LabelBytes(e.labels) + FieldBytes(e.fields[..i])
    {
      assert e.fields[..i + 1][..i] == e.fields[..i];
      n := n + |e.fields[i].key| + |e.fields[i].value| * 11 / 10 + 6;
    }
    assert e.fields[..|e.fields|] == e.fields;
  }

  function KeysAndValues(fields: seq<Field>): nat {
    if fields == [] then 0
    else KeysAndValues(fields[..|fields| - 1]) + |fields[|fields| - 1].key| + |fields[|fields| - 1].value|
  }

  /** Every text of an entry but the tenant. */
  function Content(e: Entry): nat {
    FixedContent(e) + KeysAndValues(e.labels) + KeysAndValues(e.fields)
  }

  lemma TenthMore(n: nat)
    ensures n <= n * 11 / 10 && 10 * (n * 11 / 10) <= 11 * n
  {
  }

  function FixedContent(e: Entry): nat {
    |e.message| + |e.raw| + |e.hostname| + |e.appName| + |e.processId| + |e.messageId| + |e.source| + |e.parseError| + |e.timestampRaw|
  }

  lemma FixedWeighs(e: Entry)
    ensures FixedContent(e) + 400 <= FixedBytes(e) && 10 * (FixedBytes(e) - 400) <= 11 * FixedContent(e)
  {
    TenthMore(|e.message|);
    TenthMore(|e.raw|);
  }

  lemma {:induction false} FieldsWeigh(fields: seq<Field>)
    ensures KeysAndValues(fields) + 16 * |fields| == LabelBytes(fields)
    ensures KeysAndValues(fields) + 6 * |fields| <= FieldBytes(fields)
    ensures 10 * FieldBytes(fields) <= 11 * KeysAndValues(fields) + 60 * |fields|
  {
    if fields != [] {
      FieldsWeigh(fields[..|fields| - 1]);
      TenthMore(|fields[|fields| - 1].value|);
    }
  }

  /**
   No text is left out of the size: it is the content, a fixed part for the entry,
   each label and each field, and at most a tenth of the content more.
   */
  lemma SizeCoversContent(e: Entry)
    ensures var fixed := 400 + 16 * |e.labels| + 6 * |e.fields|;
      Content(e) + fixed <= EstimatedSize(e) && 10 * (EstimatedSize(e) - fixed) <= 11 * Content(e)
  {
    FixedWeighs(e);
    FieldsWeigh(e.labels);
    FieldsWeigh(e.fields);
  }

  /** The summed size of several entries. */
  function SizeOf(entries: seq<Entry>): nat {
    if entries == [] then 0 else SizeOf(entries[..|entries| - 1]) + EstimatedSize(entries[|entries| - 1])
  }

  lemma {:induction false} SizeOfJoin(a: seq<Entry>, b: seq<Entry>)
    ensures SizeOf(a + b) == SizeOf(a) + SizeOf(b)
  {
    if b == [] {
      assert a + b == a;
    } else {
      assert (a + b)[..|a + b| - 1] == a + b[..|b| - 1];
      SizeOfJoin(a, b[..|b| - 1]);
    }
  }

  lemma SizeOfOne(e: Entry)
    ensures SizeOf([e]) == EstimatedSize(e)
  {
    assert [e][..0] == [];
  }

  /** Each entry with its tenant replaced. */
  function Retenanted(tenant: string, entries: seq<Entry>): (r: seq<Entry>)
    ensures |r| == |entries| && forall i :: 0 <= i < |r| ==> r[i] == entries[i].(tenant := tenant)
  {
    seq(|entries|, i requires 0 <= i < |entries| => entries[i].(tenant := tenant))
  }

  /** Rewriting the tenant does not change the size, so what a queue adds is what a sender takes off. */
  lemma {:induction false} SizeIgnoresTenant(tenant: string, entries: seq<Entry>)
    ensures SizeOf(Retenanted(tenant, entries)) == SizeOf(entries)
  {
    if entries != [] {
      var init := entries[..|entries| - 1];
      SizeIgnoresTenant(tenant, init);
      assert Retenanted(tenant, entries)[..|entries| - 1] == Retenanted(tenant, init);
    }
  }
}
