/**
 * Driver options: merging the user's options with the defaults, and the
 * validity check that runs on the merged result.
 */
module DriverOptions {
  import opened Wrappers
  import opened Errors
  import opened Bytes

  /** Option values as the merge sees them; arrays are not part of the model. */
  datatype Value =
    | Undefined
    | Null
    | Bool(b: bool)
    | Num(n: int)
    | Str(s: string)
    | Object(fields: map<string, Value>)

  /** JavaScript truthiness, which decides `target || {}`. */
  predicate Truthy(v: Value) {
    match v
    case Bool(b) => b
    case Num(n) => n != 0
    case Str(s) => s != []
    case Object(_) => true
    case _ => false
  }

  /** `typeof v === "object"`, which is also true of null. */
  predicate IsObjectTyped(v: Value) {
    v.Null? || v.Object?
  }

  /** No null anywhere inside a value. */
  predicate NoNull(v: Value)
    decreases v
  {
    match v
    case Null => false
    case Object(f) => forall k :: k in f ==> NoNull(f[k])
    case _ => true
  }

  /** The value a key present in both target and source ends up with. */
  function MergeEntry(t: Value, s: Value): (r: Result<Value, Thrown>)
    decreases s, 1
  {
    if s.Null? then Err(TypeError)
    else if s.Object? then Merge(t, s.fields)
    else if t.Undefined? then Ok(s)
    else Ok(t)
  }

  /**
   * The result of merging the defaults `source` into `target`: a falsy target
   * counts as an empty object; a key missing from the target is copied; a
   * nested object is merged recursively; a primitive default only fills an
   * undefined entry. Testing a key on a truthy primitive target, or merging a
   * null default into an existing entry, throws a TypeError.
   */
  function Merge(target: Value, source: map<string, Value>): (r: Result<Value, Thrown>)
    decreases Object(source), 0
    ensures r.Err? ==> r.error == TypeError
    ensures r.Ok? && source != map[] ==> r.value.Object? && source.Keys <= r.value.fields.Keys
    ensures r.Ok? && source != map[] ==>
      forall k :: k in r.value.fields && k !in source ==>
        target.Object? && k in target.fields && r.value.fields[k] == target.fields[k]
  {
    var t := if Truthy(target) then target else Object(map[]);
    if source == map[] then Ok(t)
    else if !t.Object? then Err(TypeError)
    else if exists k :: k in source && k in t.fields && MergeEntry(t.fields[k], source[k]).Err? then Err(TypeError)
    else Ok(Object(map k | k in t.fields.Keys + source.Keys ::
      if k !in source then t.fields[k]
      else if k !in t.fields then source[k]
      else MergeEntry(t.fields[k], source[k]).value))
  }

  /** The merge as the driver runs it: one pass over the defaults, writing into the target. */
  method ApplyDefaultOptions(target: Value, source: map<string, Value>) returns (r: Result<Value, Thrown>)
    ensures r == Merge(target, source)
    decreases Object(source)
  {
    var t := if Truthy(target) then target else Object(map[]);
    if source == map[] {
      return Ok(t);
    }
    if !t.Object? {
      return Err(TypeError);
    }
    var acc := t.fields;
    var keys := source.Keys;
    while keys != {}
      invariant keys <= source.Keys
      invariant acc.Keys == t.fields.Keys + (source.Keys - keys)
      invariant forall k :: k in acc && k !in source.Keys - keys ==> acc[k] == t.fields[k]
      invariant forall k :: k in source.Keys - keys ==>
        (k !in t.fields ==> acc[k] == source[k])
        && (k in t.fields ==> MergeEntry(t.fields[k], source[k]) == Ok(acc[k]))
      decreases keys
    {
      var k :| k in keys;
      var v := source[k];
      if k !in acc {
        acc := acc[k := v];
      } else if IsObjectTyped(v) {
        if v.Null? {
          return Err(TypeError);
        }
        var sub := ApplyDefaultOptions(acc[k], v.fields);
        if sub.Err? {
          return sub;
        }
        acc := acc[k := sub.value];
      } else if acc[k].Undefined? {
        acc := acc[k := v];
      }
      keys := keys - {k};
    }
    var expected := map k | k in t.fields.Keys + source.Keys ::
      if k !in source then t.fields[k]
      else if k !in t.fields then source[k]
      else MergeEntry(t.fields[k], source[k]).value;
    assert acc == expected;
    return Ok(Object(acc));
  }

  /** Merging null-free defaults into themselves changes nothing. */
  lemma {:induction false} MergeSelf(v: Value)
    requires v.Object? && NoNull(v)
    ensures Merge(v, v.fields) == Ok(v)
    decreases v
  {
    var f := v.fields;
    if f != map[] {
      forall k | k in f
        ensures MergeEntry(f[k], f[k]) == Ok(f[k])
      {
        if f[k].Object? {
          MergeSelf(f[k]);
        }
      }
      var r := Merge(v, f);
      assert r.Ok?;
      forall k | k in r.value.fields
        ensures k in f && r.value.fields[k] == f[k]
      {
      }
      assert r.value.fields == f;
    }
  }

  /** Applying null-free defaults a second time changes nothing. */
  lemma {:induction false} MergeIdempotent(target: Value, source: map<string, Value>)
    requires NoNull(Object(source))
    requires Merge(target, source).Ok?
    ensures Merge(Merge(target, source).value, source) == Merge(target, source)
    decreases Object(source)
  {
    var v := Merge(target, source).value;
    if source != map[] {
      var t := if Truthy(target) then target else Object(map[]);
      var vf := v.fields;
      forall k | k in source
        ensures MergeEntry(vf[k], source[k]) == Ok(vf[k])
      {
        if k in t.fields {
          assert MergeEntry(t.fields[k], source[k]).Ok?;
          if source[k].Object? {
            MergeIdempotent(t.fields[k], source[k].fields);
          }
        } else if source[k].Object? {
          MergeSelf(source[k]);
        }
      }
      var r := Merge(v, source);
      assert r.Ok?;
      forall k | k in r.value.fields
        ensures k in vf && r.value.fields[k] == vf[k]
      {
      }
      assert r.value.fields == vf;
    }
  }

  datatype Timeouts = Timeouts(ack: int, byte: int, report: int, nonce: int, sendDataCallback: int)

  datatype Options = Options(
    timeouts: Timeouts,
    skipInterview: bool,
    nodeInterviewAttempts: int,
    networkKey: Option<seq<Byte>>)

  /** The driver's defaults; the send-data callback timeout is the 65 s of INS13954. */
  const DefaultOptions := Options(Timeouts(1000, 150, 1000, 5000, 65000), false, 5, None)

  /** The accepted option ranges, stated as one condition. */
  predicate ValidOptions(o: Options) {
    && o.timeouts.ack >= 1
    && o.timeouts.byte >= 1
    && o.timeouts.report >= 1
    && 3000 <= o.timeouts.nonce <= 20000
    && o.timeouts.sendDataCallback >= 10000
    && (o.networkKey.Some? ==> |o.networkKey.value| == 16)
  }

  /** The checks in the driver's order; each failure is Driver_InvalidOptions. */
  function CheckOptions(o: Options): (r: Result<(), Thrown>)
    ensures r.Ok? <==> ValidOptions(o)
    ensures r.Err? ==> r.error == ZWaveError(Driver_InvalidOptions)
  {
    var invalid := Err(ZWaveError(Driver_InvalidOptions));
    if o.timeouts.ack < 1 then invalid
    else if o.timeouts.byte < 1 then invalid
    else if o.timeouts.report < 1 then invalid
    else if o.timeouts.nonce < 3000 || o.timeouts.nonce > 20000 then invalid
    else if o.timeouts.sendDataCallback < 10000 then invalid
    else if o.networkKey.Some? && |o.networkKey.value| != 16 then invalid
    else Ok(())
  }

  lemma DefaultOptionsValid()
    ensures CheckOptions(DefaultOptions).Ok?
  {
  }
}
