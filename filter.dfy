/**
 * The relevance filter (`filter_calls`): walk the call records in order and
 * turn every call that has both timestamps, whose duration parses and is
 * strictly above the threshold, and whose phone number is not excluded,
 * into an 8-cell spreadsheet row.
 */
module Filter {
  import opened Wrappers
  import opened CallRecords
  import opened Duration
  import opened Sequences

  /** The threshold used when the caller gives none (`min_duration=20`). */
  const DefaultMinDuration: real := 20.0

  /** What `filter_calls` does with one record. */
  datatype Outcome =
    | MissingTimestamp        // `startedAt` or `endedAt` absent: skipped silently
    | ParseError              // ValueError from the duration: a warning, then skipped
    | TooShort                // duration not strictly above the threshold
    | ExcludedNumber          // phone number on the exclusion list
    | MissingKey              // `id` or `transcript` absent where it is read: KeyError ends the run
    | Emitted(row: seq<Cell>) // appended to the output

  /** The row of a kept call, in the column order of the sheet header. */
  function Row(call: CallRecord, duration: real): (row: seq<Cell>)
    requires call.id.Some? && call.transcript.Some? && call.startedAt.Some? && call.endedAt.Some?
    ensures |row| == 8 && row[2] == Number(duration)
    ensures forall k :: 0 <= k < 8 && k != 2 ==> row[k].Text?
  {
    [ Text(call.id.value),
      Text(PhoneNumber(call)),
      Number(duration),
      Text(call.startedAt.value),
      Text(call.endedAt.value),
      Text(Summary(call)),
      Text(SuccessEvaluation(call)),
      Text(call.transcript.value) ]
  }

  /** The fate of one record, following the branches of the loop body. */
  function Classify(parse: string -> Option<real>, call: CallRecord, minDuration: real): (r: Outcome)
    ensures r == MissingTimestamp <==> call.startedAt.None? || call.endedAt.None?
    ensures r == ParseError ==>
      call.id.Some? && CalculateDuration(parse, call.startedAt.value, call.endedAt.value).None?
    ensures r == TooShort ==>
      CalculateDuration(parse, call.startedAt.value, call.endedAt.value).Some?
      && CalculateDuration(parse, call.startedAt.value, call.endedAt.value).value <= minDuration
    ensures r == ExcludedNumber ==> PhoneNumber(call) in ExcludedPhoneNumbers
    ensures r == MissingKey ==> call.id.None? || call.transcript.None?
    ensures r.Emitted? ==> call.id.Some? && call.transcript.Some? && PhoneNumber(call) !in ExcludedPhoneNumbers
  {
    if call.startedAt.None? || call.endedAt.None? then MissingTimestamp
    else
      match CalculateDuration(parse, call.startedAt.value, call.endedAt.value)
      case None =>
        // the warning names `call['id']`
        if call.id.None? then MissingKey else ParseError
      case Some(duration) =>
        if !(duration > minDuration) then TooShort
        else if PhoneNumber(call) in ExcludedPhoneNumbers then ExcludedNumber
        else if call.id.None? || call.transcript.None? then MissingKey
        else Emitted(Row(call, duration))
  }

  /** The rows one outcome contributes to the output. */
  function Emit(outcome: Outcome): seq<seq<Cell>>
  {
    if outcome.Emitted? then [outcome.row] else []
  }

  /** The output of `filter_calls`, defined on the prefix processed so far. */
  function Filtered(parse: string -> Option<real>, calls: seq<CallRecord>, minDuration: real): (rows: seq<seq<Cell>>)
    ensures |rows| <= |calls|
    decreases |calls|
  {
    if calls == [] then []
    else
      var n := |calls| - 1;
      Filtered(parse, calls[..n], minDuration) + Emit(Classify(parse, calls[n], minDuration))
  }

  /** No record makes the loop raise KeyError: the source's demand on its input. */
  predicate NoMissingKey(parse: string -> Option<real>, calls: seq<CallRecord>, minDuration: real)
  {
    forall i :: 0 <= i < |calls| ==> !Classify(parse, calls[i], minDuration).MissingKey?
  }

  /** `filter_calls(calls, min_duration)` */
  method FilterCalls(parse: string -> Option<real>, calls: seq<CallRecord>, minDuration: real)
    returns (filteredCalls: seq<seq<Cell>>)
    requires NoMissingKey(parse, calls, minDuration)
    ensures filteredCalls == Filtered(parse, calls, minDuration)
  {
    filteredCalls := [];
    for i := 0 to |calls|
      invariant filteredCalls == Filtered(parse, calls[..i], minDuration)
    {
      var call := calls[i];
      assert calls[..i + 1][..i] == calls[..i];
      if call.startedAt.Some? && call.endedAt.Some? {
        var duration := CalculateDuration(parse, call.startedAt.value, call.endedAt.value);
        if duration.Some? {
          var phoneNumber := PhoneNumber(call);
          if duration.value > minDuration && phoneNumber !in ExcludedPhoneNumbers {
            assert !Classify(parse, calls[i], minDuration).MissingKey?;
            filteredCalls := filteredCalls + [Row(call, duration.value)];
          }
        }
        // else: the ValueError is reported and the loop goes on with the next record
      }
    }
    assert calls[..|calls|] == calls;
  }

  /** Which records produce a row, record by record. */
  function EmitMask(parse: string -> Option<real>, calls: seq<CallRecord>, minDuration: real): (mask: seq<bool>)
    ensures |mask| == |calls|
    ensures forall i :: 0 <= i < |calls| ==> mask[i] == Classify(parse, calls[i], minDuration).Emitted?
  {
    seq(|calls|, i requires 0 <= i < |calls| => Classify(parse, calls[i], minDuration).Emitted?)
  }

  /** The positions holding `true`, in increasing order. */
  function TrueIndices(mask: seq<bool>): (ks: seq<nat>)
    ensures forall j :: 0 <= j < |ks| ==> ks[j] < |mask| && mask[ks[j]]
    ensures forall j, j' :: 0 <= j < j' < |ks| ==> ks[j] < ks[j']
    ensures forall i :: 0 <= i < |mask| && mask[i] ==> i in ks
  {
    if mask == [] then []
    else
      var n := |mask| - 1;
      TrueIndices(mask[..n]) + (if mask[n] then [n] else [])
  }

  /** The indices of the records that produce a row, in input order. */
  function KeptIndices(parse: string -> Option<real>, calls: seq<CallRecord>, minDuration: real): (ks: seq<nat>)
    ensures forall j :: 0 <= j < |ks| ==> ks[j] < |calls| && Classify(parse, calls[ks[j]], minDuration).Emitted?
    ensures forall j, j' :: 0 <= j < j' < |ks| ==> ks[j] < ks[j']
    ensures forall i :: 0 <= i < |calls| && Classify(parse, calls[i], minDuration).Emitted? ==> i in ks
  {
    TrueIndices(EmitMask(parse, calls, minDuration))
  }

  /** Looking at one more record adds its index when it produces a row. */
  lemma KeptIndicesSnoc(parse: string -> Option<real>, calls: seq<CallRecord>, minDuration: real)
    requires calls != []
    ensures var n := |calls| - 1;
      KeptIndices(parse, calls, minDuration) == KeptIndices(parse, calls[..n], minDuration)
        + (if Classify(parse, calls[n], minDuration).Emitted? then [n] else [])
  {
    var n := |calls| - 1;
    assert EmitMask(parse, calls, minDuration)[..n] == EmitMask(parse, calls[..n], minDuration);
  }

  /**
   * Order preservation: the output is the rows of exactly the emitting
   * records (KeptIndices), taken in their input order.
   */
  lemma {:induction false} FilteredSelectsInOrder(parse: string -> Option<real>, calls: seq<CallRecord>, minDuration: real)
    ensures |Filtered(parse, calls, minDuration)| == |KeptIndices(parse, calls, minDuration)|
    ensures forall j :: 0 <= j < |KeptIndices(parse, calls, minDuration)| ==>
      Filtered(parse, calls, minDuration)[j]
        == Classify(parse, calls[KeptIndices(parse, calls, minDuration)[j]], minDuration).row
    decreases |calls|
  {
    if calls != [] {
      var n := |calls| - 1;
      var prefix := calls[..n];
      FilteredSelectsInOrder(parse, prefix, minDuration);
      KeptIndicesSnoc(parse, calls, minDuration);
      var rows, rows' := Filtered(parse, calls, minDuration), Filtered(parse, prefix, minDuration);
      var ks, ks' := KeptIndices(parse, calls, minDuration), KeptIndices(parse, prefix, minDuration);
      var outcome := Classify(parse, calls[n], minDuration);
      assert rows == rows' + Emit(outcome);
      forall j | 0 <= j < |ks| ensures rows[j] == Classify(parse, calls[ks[j]], minDuration).row {
        if j < |ks'| {
          assert rows[j] == rows'[j] && ks[j] == ks'[j];
          assert prefix[ks'[j]] == calls[ks[j]];
        } else {
          assert outcome.Emitted? && ks[j] == n && rows[j] == outcome.row;
        }
      }
    }
  }

  /** Processing is per record: the output for `a + b` is the output for `a` followed by that for `b`. */
  lemma {:induction false} FilteredAppend(parse: string -> Option<real>, a: seq<CallRecord>, b: seq<CallRecord>, minDuration: real)
    ensures Filtered(parse, a + b, minDuration) == Filtered(parse, a, minDuration) + Filtered(parse, b, minDuration)
    decreases |b|
  {
    if b == [] {
      assert a + b == a;
    } else {
      var n := |b| - 1;
      assert (a + b)[..|a + b| - 1] == a + b[..n];
      assert (a + b)[|a + b| - 1] == b[n];
      FilteredAppend(parse, a, b[..n], minDuration);
      Associative(Filtered(parse, a, minDuration), Filtered(parse, b[..n], minDuration),
                  Emit(Classify(parse, b[n], minDuration)));
    }
  }

  /**
   * Record-granularity failure tolerance: a record that the loop skips
   * (missing timestamp, parse error, too short, excluded) changes nothing
   * in the rows of the records before and after it. A record that raises
   * KeyError is not skipped: it ends the run.
   */
  lemma SkippedCallLeavesOthers(parse: string -> Option<real>, before: seq<CallRecord>, call: CallRecord,
                                after: seq<CallRecord>, minDuration: real)
    requires !Classify(parse, call, minDuration).Emitted?
    requires !Classify(parse, call, minDuration).MissingKey?
    ensures Filtered(parse, before + [call] + after, minDuration)
      == Filtered(parse, before, minDuration) + Filtered(parse, after, minDuration)
  {
    FilteredAppend(parse, before + [call], after, minDuration);
    FilteredAppend(parse, before, [call], minDuration);
    FilteredSingleton(parse, call, minDuration);
  }

  lemma FilteredSingleton(parse: string -> Option<real>, call: CallRecord, minDuration: real)
    ensures Filtered(parse, [call], minDuration) == Emit(Classify(parse, call, minDuration))
  {
    assert [call][..0] == [];
  }

  /** A record emits exactly when it passes every test of the loop body, and then its row is Row. */
  lemma ClassifyEmitsExactly(parse: string -> Option<real>, call: CallRecord, minDuration: real)
    ensures Classify(parse, call, minDuration).Emitted? <==>
      && call.startedAt.Some? && call.endedAt.Some?
      && CalculateDuration(parse, call.startedAt.value, call.endedAt.value).Some?
      && CalculateDuration(parse, call.startedAt.value, call.endedAt.value).value > minDuration
      && PhoneNumber(call) !in ExcludedPhoneNumbers
      && call.id.Some? && call.transcript.Some?
    ensures Classify(parse, call, minDuration).Emitted? ==>
      Classify(parse, call, minDuration).row
        == Row(call, CalculateDuration(parse, call.startedAt.value, call.endedAt.value).value)
  {
  }

  /** An emitted row has 8 cells: id, phone, duration, start, end, summary, evaluation, transcript. */
  lemma EmittedRowShape(parse: string -> Option<real>, call: CallRecord, minDuration: real)
    requires Classify(parse, call, minDuration).Emitted?
    ensures var row := Classify(parse, call, minDuration).row;
      && |row| == 8
      && row[0] == Text(call.id.value)
      && row[1] == Text(PhoneNumber(call)) && PhoneNumber(call) !in ExcludedPhoneNumbers
      && row[2].Number? && row[2].seconds > minDuration
      && CalculateDuration(parse, call.startedAt.value, call.endedAt.value) == Some(row[2].seconds)
      && row[3] == Text(call.startedAt.value)
      && row[4] == Text(call.endedAt.value)
      && row[5] == Text(Summary(call))
      && row[6] == Text(SuccessEvaluation(call))
      && row[7] == Text(call.transcript.value)
  {
  }

  /** The invariant every output row keeps: its shape, the strict threshold and the exclusion list. */
  predicate QualifyingRow(row: seq<Cell>, minDuration: real)
  {
    && |row| == 8
    && (forall k :: 0 <= k < 8 && k != 2 ==> row[k].Text?)
    && row[1].text !in ExcludedPhoneNumbers
    && row[2].Number? && row[2].seconds > minDuration
  }

  lemma {:induction false} EveryRowQualifies(parse: string -> Option<real>, calls: seq<CallRecord>, minDuration: real)
    ensures forall row :: row in Filtered(parse, calls, minDuration) ==> QualifyingRow(row, minDuration)
    decreases |calls|
  {
    if calls != [] {
      var n := |calls| - 1;
      EveryRowQualifies(parse, calls[..n], minDuration);
      if Classify(parse, calls[n], minDuration).Emitted? {
        EmittedRowShape(parse, calls[n], minDuration);
      }
    }
  }

  /** A duration exactly at the threshold is not enough: the record is dropped as if it were absent. */
  lemma AtThresholdIsDropped(parse: string -> Option<real>, calls: seq<CallRecord>, i: nat, minDuration: real)
    requires i < |calls|
    requires calls[i].startedAt.Some? && calls[i].endedAt.Some?
    requires CalculateDuration(parse, calls[i].startedAt.value, calls[i].endedAt.value) == Some(minDuration)
    ensures Classify(parse, calls[i], minDuration) == TooShort
    ensures i !in KeptIndices(parse, calls, minDuration)
    ensures Filtered(parse, calls, minDuration) == Filtered(parse, calls[..i] + calls[i + 1..], minDuration)
  {
    DroppedCallIsInvisible(parse, calls, i, minDuration);
  }

  /**
   * A record whose number is on the exclusion list is dropped, however long
   * the call (given the `id` that the warning on a parse error reads).
   */
  lemma ExcludedNumberIsDropped(parse: string -> Option<real>, calls: seq<CallRecord>, i: nat, minDuration: real)
    requires i < |calls|
    requires PhoneNumber(calls[i]) in ExcludedPhoneNumbers
    requires calls[i].id.Some?
    ensures !Classify(parse, calls[i], minDuration).Emitted?
    ensures i !in KeptIndices(parse, calls, minDuration)
    ensures Filtered(parse, calls, minDuration) == Filtered(parse, calls[..i] + calls[i + 1..], minDuration)
  {
    DroppedCallIsInvisible(parse, calls, i, minDuration);
  }

  /** A record that the loop skips leaves the output as if the record had not been there. */
  lemma DroppedCallIsInvisible(parse: string -> Option<real>, calls: seq<CallRecord>, i: nat, minDuration: real)
    requires i < |calls|
    requires !Classify(parse, calls[i], minDuration).Emitted?
    requires !Classify(parse, calls[i], minDuration).MissingKey?
    ensures i !in KeptIndices(parse, calls, minDuration)
    ensures Filtered(parse, calls, minDuration) == Filtered(parse, calls[..i] + calls[i + 1..], minDuration)
  {
    assert calls == calls[..i] + [calls[i]] + calls[i + 1..];
    SkippedCallLeavesOthers(parse, calls[..i], calls[i], calls[i + 1..], minDuration);
    FilteredAppend(parse, calls[..i], calls[i + 1..], minDuration);
  }

  /**
   * Records missing a timestamp never make the loop raise (nothing is read
   * from them) and never produce a row.
   */
  lemma {:induction false} MissingTimestampsNeverRaise(parse: string -> Option<real>, calls: seq<CallRecord>, minDuration: real)
    requires forall i :: 0 <= i < |calls| ==> calls[i].startedAt.None? || calls[i].endedAt.None?
    ensures NoMissingKey(parse, calls, minDuration)
    ensures Filtered(parse, calls, minDuration) == []
    decreases |calls|
  {
    if calls != [] {
      var n := |calls| - 1;
      MissingTimestampsNeverRaise(parse, calls[..n], minDuration);
    }
  }
}
