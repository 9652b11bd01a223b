/**
  The device listing of list_devices.py: one pass over the device list that
  keeps output-capable devices outside the WDM-KS host API with a non-blank
  name, skips names already listed, and marks the default output device.
  Printing is left out: the model produces the rows that would be printed.
 */
module DeviceListing {
  import opened Text
  import opened Voice

  /** One printed row: index, name, channel count, host API name and marker text. */
  datatype Row = Row(index: nat, name: string, channels: int, hostApi: string, marker: string)

  /** The outcome of `list_audio_devices`: the rows, or the error branch. */
  datatype Listing = Rows(rows: seq<Row>) | ListingError

  /** The host API whose devices are hidden. */
  const WdmKs: string := "Windows WDM-KS"

  /** A device passes the three filters: output channels, host API, non-blank name. */
  predicate Eligible(d: Device) {
    d.maxOutputChannels > 0 && d.hostApi != WdmKs && Strip(d.name) != ""
  }

  /** Device `i` is eligible and no earlier eligible device has its name. */
  predicate FirstOfName(devices: seq<Device>, i: nat)
    requires i < |devices|
  {
    Eligible(devices[i]) && forall j :: 0 <= j < i && Eligible(devices[j]) ==> devices[j].name != devices[i].name
  }

  /** The row printed for device `i`; only the default output device is marked. */
  function RowOf(d: Device, i: nat, defaultOutput: int): (row: Row)
    ensures row.index == i && row.name == d.name && row.channels == d.maxOutputChannels && row.hostApi == d.hostApi
    ensures row.marker == "[DEFAULT]" <==> i == defaultOutput
    ensures row.marker == "" <==> i != defaultOutput
  {
    Row(i, d.name, d.maxOutputChannels, d.hostApi, if i == defaultOutput then "[DEFAULT]" else "")
  }

  /** The rows for the first `n` devices. */
  function ListingUpTo(devices: seq<Device>, n: nat, defaultOutput: int): seq<Row>
    requires n <= |devices|
  {
    if n == 0 then []
    else
      var prev := ListingUpTo(devices, n - 1, defaultOutput);
      if FirstOfName(devices, n - 1) then prev + [RowOf(devices[n - 1], n - 1, defaultOutput)] else prev
  }

  /** Device `i` is eligible exactly when its name joins the seen set. */
  lemma SeenNamesStep(devices: seq<Device>, i: nat)
    requires i < |devices|
    ensures SeenNames(devices, i + 1) == SeenNames(devices, i) + (if Eligible(devices[i]) then {devices[i].name} else {})
  {
  }

  /** A name is seen exactly when an earlier eligible device has it. */
  lemma SeenNamesMember(devices: seq<Device>, i: nat, name: string)
    requires i <= |devices|
    ensures name in SeenNames(devices, i) <==> exists j :: 0 <= j < i && Eligible(devices[j]) && devices[j].name == name
  {
  }

  /** `row` is the row of a first-of-its-name eligible device among the first `n`. */
  predicate ValidRow(devices: seq<Device>, n: nat, defaultOutput: int, row: Row)
    requires n <= |devices|
  {
    row.index < n && FirstOfName(devices, row.index) && row == RowOf(devices[row.index], row.index, defaultOutput)
  }

  /** The names of the eligible devices among the first `n`. */
  function SeenNames(devices: seq<Device>, n: nat): set<string>
    requires n <= |devices|
  {
    set j | 0 <= j < n && Eligible(devices[j]) :: devices[j].name
  }

  /**
    `list_audio_devices` over the queried devices and the default output index
    (`None` stands for either query raising).
   */
  method ListAudioDevices(query: DeviceQuery, defaultOutput: Option<int>) returns (out: Listing)
    ensures query.QueryError? || defaultOutput.None? ==> out == ListingError
    ensures query.Devices? && defaultOutput.Some? ==>
      out == Rows(ListingUpTo(query.list, |query.list|, defaultOutput.value))
  {
    if query.QueryError? || defaultOutput.None? {
      return ListingError;
    }
    var devices := query.list;
    var seen: set<string> := {};
    var rows: seq<Row> := [];
    var i := 0;
    while i < |devices|
      invariant 0 <= i <= |devices|
      invariant seen == SeenNames(devices, i)
      invariant rows == ListingUpTo(devices, i, defaultOutput.value)
    {
      var d := devices[i];
      SeenNamesStep(devices, i);
      SeenNamesMember(devices, i, d.name);
      if d.maxOutputChannels <= 0 || d.hostApi == WdmKs || d.name == "" || Strip(d.name) == "" {
      } else if d.name in seen {
      } else {
        seen := seen + {d.name};
        var marker := if i == defaultOutput.value then "[DEFAULT]" else "";
        rows := rows + [Row(i, d.name, d.maxOutputChannels, d.hostApi, marker)];
      }
      i := i + 1;
    }
    return Rows(rows);
  }

  /** Each row is the row of a first-of-its-name eligible device among the first `n`. */
  lemma {:induction false} ListingRowsValid(devices: seq<Device>, n: nat, defaultOutput: int)
    requires n <= |devices|
    ensures forall k :: 0 <= k < |ListingUpTo(devices, n, defaultOutput)| ==>
      ValidRow(devices, n, defaultOutput, ListingUpTo(devices, n, defaultOutput)[k])
  {
    if n > 0 {
      ListingRowsValid(devices, n - 1, defaultOutput);
      var prev := ListingUpTo(devices, n - 1, defaultOutput);
      var rows := ListingUpTo(devices, n, defaultOutput);
      assert rows == if FirstOfName(devices, n - 1) then prev + [RowOf(devices[n - 1], n - 1, defaultOutput)] else prev;
      assert forall k :: 0 <= k < |prev| ==> rows[k] == prev[k];
      forall k | 0 <= k < |rows|
        ensures ValidRow(devices, n, defaultOutput, rows[k])
      {
        if k < |prev| {
          assert ValidRow(devices, n - 1, defaultOutput, prev[k]);
        }
      }
    } else {
      assert ListingUpTo(devices, n, defaultOutput) == [];
    }
  }

  /** Rows come in strictly ascending device-index order. */
  lemma {:induction false} ListingAscending(devices: seq<Device>, n: nat, defaultOutput: int)
    requires n <= |devices|
    ensures forall k1, k2 :: 0 <= k1 < k2 < |ListingUpTo(devices, n, defaultOutput)| ==>
      ListingUpTo(devices, n, defaultOutput)[k1].index < ListingUpTo(devices, n, defaultOutput)[k2].index
  {
    if n > 0 {
      ListingAscending(devices, n - 1, defaultOutput);
      ListingRowsValid(devices, n - 1, defaultOutput);
      var prev := ListingUpTo(devices, n - 1, defaultOutput);
      var rows := ListingUpTo(devices, n, defaultOutput);
      assert rows == if FirstOfName(devices, n - 1) then prev + [RowOf(devices[n - 1], n - 1, defaultOutput)] else prev;
      assert forall k :: 0 <= k < |prev| ==> rows[k] == prev[k];
    }
  }

  /** Some row is that of device `i`. */
  predicate HasRowFor(rows: seq<Row>, i: nat) {
    exists k :: 0 <= k < |rows| && rows[k].index == i
  }

  /** Every first-of-its-name eligible device among the first `n` has a row. */
  lemma {:induction false} ListingComplete(devices: seq<Device>, n: nat, defaultOutput: int)
    requires n <= |devices|
    ensures forall i :: 0 <= i < n && FirstOfName(devices, i) ==> HasRowFor(ListingUpTo(devices, n, defaultOutput), i)
  {
    if n > 0 {
      ListingComplete(devices, n - 1, defaultOutput);
      var prev := ListingUpTo(devices, n - 1, defaultOutput);
      var rows := ListingUpTo(devices, n, defaultOutput);
      assert rows == if FirstOfName(devices, n - 1) then prev + [RowOf(devices[n - 1], n - 1, defaultOutput)] else prev;
      forall i | 0 <= i < n && FirstOfName(devices, i)
        ensures HasRowFor(rows, i)
      {
        if i < n - 1 {
          assert HasRowFor(prev, i);
          var k :| 0 <= k < |prev| && prev[k].index == i;
          assert rows[k] == prev[k];
        } else {
          assert rows[|prev|].index == i;
        }
      }
    }
  }

  /** Every listed device has output channels, is not on WDM-KS and has a non-blank name. */
  lemma ListedDevicesPassFilters(devices: seq<Device>, defaultOutput: int, k: nat)
    requires k < |ListingUpTo(devices, |devices|, defaultOutput)|
    ensures var row := ListingUpTo(devices, |devices|, defaultOutput)[k];
      row.channels > 0 && row.hostApi != WdmKs && Strip(row.name) != ""
      && (row.marker == "[DEFAULT]" <==> row.index == defaultOutput)
  {
    ListingRowsValid(devices, |devices|, defaultOutput);
  }

  /** No name is listed twice. */
  lemma NamesUnique(devices: seq<Device>, defaultOutput: int, k1: nat, k2: nat)
    requires k1 < k2 < |ListingUpTo(devices, |devices|, defaultOutput)|
    ensures var rows := ListingUpTo(devices, |devices|, defaultOutput);
      rows[k1].name != rows[k2].name
  {
    ListingRowsValid(devices, |devices|, defaultOutput);
    ListingAscending(devices, |devices|, defaultOutput);
  }

  /** Among the eligible devices sharing a name, one of index `i` or below is first of that name. */
  lemma {:induction false} EarliestOfName(devices: seq<Device>, i: nat)
    requires i < |devices| && Eligible(devices[i])
    ensures exists j :: 0 <= j <= i && FirstOfName(devices, j) && devices[j].name == devices[i].name
  {
    if !FirstOfName(devices, i) {
      var j :| 0 <= j < i && Eligible(devices[j]) && devices[j].name == devices[i].name;
      EarliestOfName(devices, j);
    }
  }

  /**
    Every eligible device's name is listed, on the row of its first eligible
    occurrence, so a later duplicate never replaces an earlier one.
   */
  lemma EveryEligibleNameListed(devices: seq<Device>, defaultOutput: int, i: nat)
    requires i < |devices| && Eligible(devices[i])
    ensures exists k ::
              && 0 <= k < |ListingUpTo(devices, |devices|, defaultOutput)|
              && ListingUpTo(devices, |devices|, defaultOutput)[k].name == devices[i].name
              && ListingUpTo(devices, |devices|, defaultOutput)[k].index <= i
  {
    var rows := ListingUpTo(devices, |devices|, defaultOutput);
    ListingRowsValid(devices, |devices|, defaultOutput);
    ListingComplete(devices, |devices|, defaultOutput);
    EarliestOfName(devices, i);
    var j :| 0 <= j <= i && FirstOfName(devices, j) && devices[j].name == devices[i].name;
    assert HasRowFor(rows, j);
    var k :| 0 <= k < |rows| && rows[k].index == j;
    assert ValidRow(devices, |devices|, defaultOutput, rows[k]);
    assert rows[k].name == devices[i].name && rows[k].index <= i;
  }

}
