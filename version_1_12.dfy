/**
 * SDK telemetry version 1.12 (`version_1_12.py`): where its zones end, the
 * size of the whole record, and the version check that reads the unsigned
 * int after the first 40 bytes of shared memory.
 */
module Version112 {
  import opened Wrappers
  import opened Python
  import opened Layout
  import opened Version112Tables

  const VersionNumber: nat := 12
  /** `STRUCT_TELEMETRY_VERSION` skips this many bytes and then reads one unsigned int. */
  const VersionTagOffset: nat := 40

  /** A trailer record's zones end at bytes 84, 152, 616, 872, 920 and 1560. */
  lemma TrailerZoneEnds()
    ensures Span(TrailerZone1) == 84
    ensures Span(TrailerZone1 + TrailerZone2) == 152
    ensures Span(TrailerZone1 + TrailerZone2 + TrailerZone3) == 616
    ensures Span(TrailerZone1 + TrailerZone2 + TrailerZone3 + TrailerZone4) == 872
    ensures Span(TrailerZone1 + TrailerZone2 + TrailerZone3 + TrailerZone4 + TrailerZone5) == 920
    ensures Span(TrailerLayout) == 1560
  {
    TrailerZone1Span();
    TrailerZone2Span();
    TrailerZone3Span();
    TrailerZone4Span();
    TrailerZone5Span();
    TrailerZone6Span();
    SpanAppend(TrailerZone1, TrailerZone2);
    SpanAppend(TrailerZone1 + TrailerZone2, TrailerZone3);
    SpanAppend(TrailerZone1 + TrailerZone2 + TrailerZone3, TrailerZone4);
    SpanAppend(TrailerZone1 + TrailerZone2 + TrailerZone3 + TrailerZone4, TrailerZone5);
    SpanAppend(TrailerZone1 + TrailerZone2 + TrailerZone3 + TrailerZone4 + TrailerZone5, TrailerZone6);
  }

  /** Zones 1 to 13 of the telemetry record end at the offsets the zone comments of the table give. */
  lemma TelemetryZoneEnds()
    ensures Span(TelemetryZone1) == 40
    ensures Span(TelemetryZone1 + TelemetryZone2) == 500
    ensures Span(TelemetryZone1 + TelemetryZone2 + TelemetryZone3) == 700
    ensures Span(TelemetryZone1 + TelemetryZone2 + TelemetryZone3 + TelemetryZone4) == 1500
    ensures Span(TelemetryZone1 + TelemetryZone2 + TelemetryZone3 + TelemetryZone4 + TelemetryZone5) == 1640
    ensures Span(TelemetryZone1 + TelemetryZone2 + TelemetryZone3 + TelemetryZone4 + TelemetryZone5 + TelemetryZone6) == 2000
    ensures Span(TelemetryZone1 + TelemetryZone2 + TelemetryZone3 + TelemetryZone4 + TelemetryZone5 + TelemetryZone6 + TelemetryZone7) == 2200
    ensures Span(TelemetryZone1 + TelemetryZone2 + TelemetryZone3 + TelemetryZone4 + TelemetryZone5 + TelemetryZone6 + TelemetryZone7 + TelemetryZone8) == 2300
    ensures Span(TelemetryZone1 + TelemetryZone2 + TelemetryZone3 + TelemetryZone4 + TelemetryZone5 + TelemetryZone6 + TelemetryZone7 + TelemetryZone8 + TelemetryZone9) == 4000
    ensures Span(TelemetryZone1 + TelemetryZone2 + TelemetryZone3 + TelemetryZone4 + TelemetryZone5 + TelemetryZone6 + TelemetryZone7 + TelemetryZone8 + TelemetryZone9 + TelemetryZone10) == 4200
    ensures Span(TelemetryZone1 + TelemetryZone2 + TelemetryZone3 + TelemetryZone4 + TelemetryZone5 + TelemetryZone6 + TelemetryZone7 + TelemetryZone8 + TelemetryZone9 + TelemetryZone10 + TelemetryZone11) == 4300
    ensures Span(TelemetryZone1 + TelemetryZone2 + TelemetryZone3 + TelemetryZone4 + TelemetryZone5 + TelemetryZone6 + TelemetryZone7 + TelemetryZone8 + TelemetryZone9 + TelemetryZone10 + TelemetryZone11 + TelemetryZone12) == 4400
    ensures Span(TelemetryFixedLayout) == 6000
  {
    TelemetryZone1Span();
    TelemetryZone2Span();
    TelemetryZone3Span();
    TelemetryZone4Span();
    TelemetryZone5Span();
    TelemetryZone6Span();
    TelemetryZone7Span();
    TelemetryZone8Span();
    TelemetryZone9Span();
    TelemetryZone10Span();
    TelemetryZone11Span();
    TelemetryZone12Span();
    TelemetryZone13Span();
    SpanAppend(TelemetryZone1, TelemetryZone2);
    SpanAppend(TelemetryZone1 + TelemetryZone2, TelemetryZone3);
    SpanAppend(TelemetryZone1 + TelemetryZone2 + TelemetryZone3, TelemetryZone4);
    SpanAppend(TelemetryZone1 + TelemetryZone2 + TelemetryZone3 + TelemetryZone4, TelemetryZone5);
    SpanAppend(TelemetryZone1 + TelemetryZone2 + TelemetryZone3 + TelemetryZone4 + TelemetryZone5, TelemetryZone6);
    SpanAppend(TelemetryZone1 + TelemetryZone2 + TelemetryZone3 + TelemetryZone4 + TelemetryZone5 + TelemetryZone6, TelemetryZone7);
    SpanAppend(TelemetryZone1 + TelemetryZone2 + TelemetryZone3 + TelemetryZone4 + TelemetryZone5 + TelemetryZone6 + TelemetryZone7, TelemetryZone8);
    SpanAppend(TelemetryZone1 + TelemetryZone2 + TelemetryZone3 + TelemetryZone4 + TelemetryZone5 + TelemetryZone6 + TelemetryZone7 + TelemetryZone8, TelemetryZone9);
    SpanAppend(TelemetryZone1 + TelemetryZone2 + TelemetryZone3 + TelemetryZone4 + TelemetryZone5 + TelemetryZone6 + TelemetryZone7 + TelemetryZone8 + TelemetryZone9, TelemetryZone10);
    SpanAppend(TelemetryZone1 + TelemetryZone2 + TelemetryZone3 + TelemetryZone4 + TelemetryZone5 + TelemetryZone6 + TelemetryZone7 + TelemetryZone8 + TelemetryZone9 + TelemetryZone10, TelemetryZone11);
    SpanAppend(TelemetryZone1 + TelemetryZone2 + TelemetryZone3 + TelemetryZone4 + TelemetryZone5 + TelemetryZone6 + TelemetryZone7 + TelemetryZone8 + TelemetryZone9 + TelemetryZone10 + TelemetryZone11, TelemetryZone12);
    SpanAppend(TelemetryZone1 + TelemetryZone2 + TelemetryZone3 + TelemetryZone4 + TelemetryZone5 + TelemetryZone6 + TelemetryZone7 + TelemetryZone8 + TelemetryZone9 + TelemetryZone10 + TelemetryZone11 + TelemetryZone12, TelemetryZone13);
  }

  /** The whole record: zones 1 to 13, then zone 14, room for `TrailerCapacity` trailer records. */
  function TelemetrySize(): nat {
    Span(TelemetryFixedLayout) + TrailerCapacity * Span(TrailerLayout)
  }

  /** Byte offset of trailer record `k`, counting from 0. */
  function TrailerRecordOffset(k: nat): nat {
    Span(TelemetryFixedLayout) + k * Span(TrailerLayout)
  }

  /** Zone 14 starts at 6000 and holds exactly ten full trailer records, so the record ends at 21600. */
  lemma TelemetryEndsAt21600()
    ensures TrailerRecordOffset(0) == 6000
    ensures TrailerRecordOffset(TrailerCapacity) == TelemetrySize() == 21600
  {
    TrailerZoneEnds();
    TelemetryZoneEnds();
  }

  /** Every field of trailer record `k` lies inside that record and inside the telemetry record. */
  lemma TrailerRecordFieldsInside(k: nat)
    requires k < TrailerCapacity
    ensures forall f :: f in Fields(TrailerLayout, TrailerRecordOffset(k)) ==>
              TrailerRecordOffset(k) <= f.offset
              && f.offset + ShapeSize(f.shape) <= TrailerRecordOffset(k + 1) <= TelemetrySize()
  {
    TelemetryEndsAt21600();
    FieldsInsideTable(TrailerLayout, TrailerRecordOffset(k));
    assert TrailerRecordOffset(k + 1) == TrailerRecordOffset(k) + 1560;
    assert TrailerRecordOffset(k + 1) <= TrailerRecordOffset(TrailerCapacity) by {
      assert k + 1 <= TrailerCapacity;
    }
  }

  /** Zone 13 is `SubstanceSize` strings of `StringSize` bytes each. */
  lemma SubstancesAreFixedStrings()
    ensures TelemetryZone13 == [Slot("substances", Array(Text(StringSize), SubstanceSize))]
    ensures Span(TelemetryZone13) == SubstanceSize * StringSize == 1600
  {
  }

  /** The seventh field decoded, right after zone 1, is `telemetry_plugin_revision` at byte 40. */
  lemma PluginRevisionIsSeventhField()
    ensures |Fields(TelemetryZone1 + TelemetryZone2, 0)| > 6
    ensures Fields(TelemetryZone1 + TelemetryZone2, 0)[6] == Field("telemetry_plugin_revision", 40, Basic(UInt))
  {
    PluginRevisionStartsZone2();
    TelemetryZone1Span();
    FieldsPrefixStable(TelemetryZone2a, TelemetryZone2b, 40, 0);
    FieldsPrefixStable(TelemetryZone2a + TelemetryZone2b, TelemetryZone2c, 40, 0);
    FieldsAppend(TelemetryZone1, TelemetryZone2, 0);
  }

  /**
   * The four bytes after the first 40 are exactly the field `telemetry_plugin_revision`,
   * an unsigned int: every other field of the record ends before them or starts after them.
   */
  lemma VersionTagIsPluginRevision()
    ensures |Fields(TelemetryFixedLayout, 0)| > 6
    ensures Fields(TelemetryFixedLayout, 0)[6] == Field("telemetry_plugin_revision", VersionTagOffset, Basic(UInt))
    ensures ShapeSize(Basic(UInt)) == 4
    ensures forall i :: 0 <= i < |Fields(TelemetryFixedLayout, 0)| && i != 6 ==>
              Fields(TelemetryFixedLayout, 0)[i].offset + ShapeSize(Fields(TelemetryFixedLayout, 0)[i].shape) <= VersionTagOffset
              || VersionTagOffset + 4 <= Fields(TelemetryFixedLayout, 0)[i].offset
  {
    PluginRevisionIsSeventhField();
    FieldsPrefixStable(TelemetryZone1 + TelemetryZone2, TelemetryZone3, 0, 6);
    FieldsPrefixStable(TelemetryZone1 + TelemetryZone2 + TelemetryZone3, TelemetryZone4, 0, 6);
    FieldsPrefixStable(TelemetryZone1 + TelemetryZone2 + TelemetryZone3 + TelemetryZone4, TelemetryZone5, 0, 6);
    FieldsPrefixStable(TelemetryZone1 + TelemetryZone2 + TelemetryZone3 + TelemetryZone4 + TelemetryZone5, TelemetryZone6, 0, 6);
    FieldsPrefixStable(TelemetryZone1 + TelemetryZone2 + TelemetryZone3 + TelemetryZone4 + TelemetryZone5 + TelemetryZone6, TelemetryZone7, 0, 6);
    FieldsPrefixStable(TelemetryZone1 + TelemetryZone2 + TelemetryZone3 + TelemetryZone4 + TelemetryZone5 + TelemetryZone6 + TelemetryZone7, TelemetryZone8, 0, 6);
    FieldsPrefixStable(TelemetryZone1 + TelemetryZone2 + TelemetryZone3 + TelemetryZone4 + TelemetryZone5 + TelemetryZone6 + TelemetryZone7 + TelemetryZone8, TelemetryZone9, 0, 6);
    FieldsPrefixStable(TelemetryZone1 + TelemetryZone2 + TelemetryZone3 + TelemetryZone4 + TelemetryZone5 + TelemetryZone6 + TelemetryZone7 + TelemetryZone8 + TelemetryZone9, TelemetryZone10, 0, 6);
    FieldsPrefixStable(TelemetryZone1 + TelemetryZone2 + TelemetryZone3 + TelemetryZone4 + TelemetryZone5 + TelemetryZone6 + TelemetryZone7 + TelemetryZone8 + TelemetryZone9 + TelemetryZone10, TelemetryZone11, 0, 6);
    FieldsPrefixStable(TelemetryZone1 + TelemetryZone2 + TelemetryZone3 + TelemetryZone4 + TelemetryZone5 + TelemetryZone6 + TelemetryZone7 + TelemetryZone8 + TelemetryZone9 + TelemetryZone10 + TelemetryZone11, TelemetryZone12, 0, 6);
    FieldsPrefixStable(TelemetryZone1 + TelemetryZone2 + TelemetryZone3 + TelemetryZone4 + TelemetryZone5 + TelemetryZone6 + TelemetryZone7 + TelemetryZone8 + TelemetryZone9 + TelemetryZone10 + TelemetryZone11 + TelemetryZone12, TelemetryZone13, 0, 6);
    FieldsDisjoint(TelemetryFixedLayout, 0);
  }

  // ---------------------------------------------------------------------------
  // The version check.

  /** `get_version_number()`. */
  function GetVersionNumber(): (v: nat)
    ensures v == 12
  {
    VersionNumber
  }

  /** `STRUCT_TELEMETRY_VERSION.unpack_from(data)`: a buffer too short for the tag makes the read raise. */
  function ReadVersionTag(data: seq<byte>): (r: Result<nat, PyError>)
    ensures r.Failure? <==> |data| < VersionTagOffset + 4
    ensures r.Success? ==> r.value < U32Limit && EncodeU32(r.value) == data[VersionTagOffset..VersionTagOffset + 4]
  {
    if |data| < VersionTagOffset + 4 then Failure(StructError)
    else
      EncodeDecodeU32(data[VersionTagOffset..VersionTagOffset + 4]);
      Success(DecodeU32(data[VersionTagOffset..VersionTagOffset + 4]))
  }

  /** `is_same_version(data)`: the tag equals `VERSION_NUMBER`. */
  function IsSameVersion(data: seq<byte>): Result<bool, PyError> {
    var tag :- ReadVersionTag(data);
    Success(tag == VersionNumber)
  }

  /** A buffer is accepted exactly when bytes 40 to 43 are 12 written little-endian; a short one raises. */
  lemma IsSameVersionIff(data: seq<byte>)
    ensures IsSameVersion(data) == Success(true)
        <==> |data| >= 44 && data[40..44] == EncodeU32(12)
    ensures IsSameVersion(data).Failure? <==> |data| < 44
  {
    if |data| >= 44 && data[40..44] == EncodeU32(12) {
      DecodeEncodeU32(12);
    }
  }
}
