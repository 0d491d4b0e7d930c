/**
 * block_device_info: reads a block device's geometry from sysfs and derives
 * the alignment boundary that partitions should start on.
 *
 * The sysfs tree is a parameter: a map from each file's path to the integer
 * on its first line.  A path absent from the map is a file that does not exist.
 */
module BlockDeviceInfo {
  import opened Outcomes
  import DeviceNames
  import opened ByteUnits

  type SysfsFiles = map<string, nat>

  datatype InfoError =
    | BadDeviceName(cause: DeviceNames.DeviceNameError)   // devicename_from_dev_file raised
    | FileNotFound(path: string)                           // open() of a mandatory file failed
    | DivisionByZero                                       // physical_block_size read as 0

  /** The five values read from sysfs; alignment_offset may be absent. */
  datatype Readings = Readings(
    size: nat,
    optimalIoSize: nat,
    minimumIoSize: nat,
    alignmentOffset: Option<nat>,
    physicalBlockSize: nat)

  /** The keys of the dictionary the source returns. */
  const ReportKeys: set<string> := {
    "size", "optimal_io_size", "minimum_io_size", "alignment_offset", "physical_block_size",
    "alignment_boundary", "alignment_boundary_sectors", "first_partition_offset_sectors"}

  function SizePath(name: string): (path: string)
  {
    "/sys/class/block/" + name + "/size"
  }

  function QueuePath(name: string, attribute: string): (path: string)
  {
    "/sys/block/" + name + "/queue/" + attribute
  }

  /** The reads in the source's order; the first missing mandatory file is the error. */
  function ReadingsOf(name: string, files: SysfsFiles): (r: Result<Readings, InfoError>)
    ensures r.Ok? <==>
      SizePath(name) in files && QueuePath(name, "optimal_io_size") in files &&
      QueuePath(name, "minimum_io_size") in files && QueuePath(name, "physical_block_size") in files
    ensures r.Err? ==> r.error.FileNotFound? && r.error.path !in files
    ensures SizePath(name) !in files ==> r == Err(FileNotFound(SizePath(name)))
    ensures r.Ok? ==> (r.value.alignmentOffset.Some? <==> QueuePath(name, "alignment_offset") in files)
  {
    if SizePath(name) !in files then Err(FileNotFound(SizePath(name)))
    else if QueuePath(name, "optimal_io_size") !in files then Err(FileNotFound(QueuePath(name, "optimal_io_size")))
    else if QueuePath(name, "minimum_io_size") !in files then Err(FileNotFound(QueuePath(name, "minimum_io_size")))
    else if QueuePath(name, "physical_block_size") !in files then Err(FileNotFound(QueuePath(name, "physical_block_size")))
    else
      var offsetPath := QueuePath(name, "alignment_offset");
      Ok(Readings(
        files[SizePath(name)],
        files[QueuePath(name, "optimal_io_size")],
        files[QueuePath(name, "minimum_io_size")],
        if offsetPath in files then Some(files[offsetPath]) else None,
        files[QueuePath(name, "physical_block_size")]))
  }

  function OffsetOrZero(rd: Readings): nat
  {
    if rd.alignmentOffset.Some? then rd.alignmentOffset.value else 0
  }

  /** 1 MiB when the device reports no optimal I/O size, else that size plus the offset. */
  function AlignmentBoundary(rd: Readings): nat
  {
    if rd.optimalIoSize == 0 then MiB else rd.optimalIoSize + OffsetOrZero(rd)
  }

  /** The dictionary the source returns for a successful read. */
  function Report(rd: Readings): (m: map<string, nat>)
    requires rd.physicalBlockSize > 0
  {
    var boundary := AlignmentBoundary(rd);
    map[
      "size" := rd.size,
      "optimal_io_size" := rd.optimalIoSize,
      "minimum_io_size" := rd.minimumIoSize,
      "alignment_offset" := OffsetOrZero(rd),
      "physical_block_size" := rd.physicalBlockSize,
      "alignment_boundary" := boundary,
      "alignment_boundary_sectors" := boundary / rd.physicalBlockSize,
      "first_partition_offset_sectors" := boundary / rd.physicalBlockSize]
  }

  /** What block_device_info(dev) returns or raises, given the sysfs contents. */
  function Info(dev: string, files: SysfsFiles): (r: Result<map<string, nat>, InfoError>)
    ensures r.Err? && r.error.BadDeviceName? <==> DeviceNames.DeviceName(dev).Err?
    ensures r.Err? && r.error.FileNotFound? ==> r.error.path !in files
    ensures r.Ok? ==> r.value.Keys == ReportKeys
  {
    match DeviceNames.DeviceName(dev)
    case Err(e) => Err(BadDeviceName(e))
    case Ok(name) =>
      match ReadingsOf(name, files)
      case Err(e) => Err(e)
      case Ok(rd) => if rd.physicalBlockSize == 0 then Err(DivisionByZero) else Ok(Report(rd))
  }

  /**
   * The source's procedure: parse the name, then fill the dictionary one key at
   * a time, later entries computed from earlier ones.
   */
  method BlockDeviceInfo(dev: string, files: SysfsFiles) returns (r: Result<map<string, nat>, InfoError>)
    ensures r == Info(dev, files)
  {
    var devname := DeviceNames.DeviceName(dev);
    if devname.Err? {
      return Err(BadDeviceName(devname.error));
    }
    var name := devname.value;
    var blockvals: map<string, nat> := map[];

    var path := SizePath(name);
    if path !in files {
      return Err(FileNotFound(path));
    }
    blockvals := blockvals["size" := files[path]];

    path := QueuePath(name, "optimal_io_size");
    if path !in files {
      return Err(FileNotFound(path));
    }
    blockvals := blockvals["optimal_io_size" := files[path]];

    path := QueuePath(name, "minimum_io_size");
    if path !in files {
      return Err(FileNotFound(path));
    }
    blockvals := blockvals["minimum_io_size" := files[path]];

    path := QueuePath(name, "alignment_offset");
    if path !in files {
      blockvals := blockvals["alignment_offset" := 0];
    } else {
      blockvals := blockvals["alignment_offset" := files[path]];
    }

    path := QueuePath(name, "physical_block_size");
    if path !in files {
      return Err(FileNotFound(path));
    }
    blockvals := blockvals["physical_block_size" := files[path]];

    if blockvals["optimal_io_size"] == 0 {
      blockvals := blockvals["alignment_boundary" := MiB];
    } else {
      blockvals := blockvals["alignment_boundary" := blockvals["optimal_io_size"] + blockvals["alignment_offset"]];
    }

    if blockvals["physical_block_size"] == 0 {
      return Err(DivisionByZero);
    }
    blockvals := blockvals["alignment_boundary_sectors" := blockvals["alignment_boundary"] / blockvals["physical_block_size"]];
    blockvals := blockvals["first_partition_offset_sectors" := blockvals["alignment_boundary"] / blockvals["physical_block_size"]];

    r := Ok(blockvals);
  }

  // ---------------------------------------------------------------------
  // Properties of the returned dictionary

  /** The call fails exactly on a bad name, a missing mandatory file or a zero block size. */
  lemma InfoFailsExactly(dev: string, files: SysfsFiles)
    ensures Info(dev, files).Err? <==>
      DeviceNames.DeviceName(dev).Err? ||
      (var name := DeviceNames.DeviceName(dev).value;
       SizePath(name) !in files ||
       QueuePath(name, "optimal_io_size") !in files ||
       QueuePath(name, "minimum_io_size") !in files ||
       QueuePath(name, "physical_block_size") !in files ||
       files[QueuePath(name, "physical_block_size")] == 0)
  {
  }

  /** A missing alignment_offset is never an error: it reads as 0. */
  lemma AlignmentOffsetDefaultsToZero(dev: string, files: SysfsFiles)
    requires Info(dev, files).Ok?
    ensures var name := DeviceNames.DeviceName(dev).value;
      var path := QueuePath(name, "alignment_offset");
      Info(dev, files).value["alignment_offset"] == if path in files then files[path] else 0
  {
  }

  /** The values read are those of the device that dev names. */
  lemma ReportsNamedDevice(dev: string, files: SysfsFiles)
    requires Info(dev, files).Ok?
    ensures var name := DeviceNames.DeviceName(dev).value;
      var v := Info(dev, files).value;
      v.Keys == ReportKeys &&
      v["size"] == files[SizePath(name)] &&
      v["optimal_io_size"] == files[QueuePath(name, "optimal_io_size")] &&
      v["minimum_io_size"] == files[QueuePath(name, "minimum_io_size")] &&
      v["physical_block_size"] == files[QueuePath(name, "physical_block_size")]
  {
  }

  /**
   * The boundary is 1 MiB whenever no optimal I/O size is reported, whatever
   * the alignment offset, and otherwise the optimal size plus the offset.
   */
  lemma AlignmentBoundaryRule(dev: string, files: SysfsFiles)
    requires Info(dev, files).Ok?
    ensures var v := Info(dev, files).value;
      v["alignment_boundary"] ==
        if v["optimal_io_size"] == 0 then MiB else v["optimal_io_size"] + v["alignment_offset"]
    ensures Info(dev, files).value["alignment_boundary"] > 0
  {
  }

  /**
   * Both sector counts are the same number: the whole number of physical
   * blocks that fit in the boundary, rounded down.
   */
  lemma BoundarySectorsRoundDown(dev: string, files: SysfsFiles)
    requires Info(dev, files).Ok?
    ensures var v := Info(dev, files).value;
      var sectors := v["alignment_boundary_sectors"];
      sectors == v["first_partition_offset_sectors"] &&
      sectors * v["physical_block_size"] <= v["alignment_boundary"] < (sectors + 1) * v["physical_block_size"]
  {
    var v := Info(dev, files).value;
    FloorQuotient(v["alignment_boundary"], v["physical_block_size"]);
  }

  lemma FloorQuotient(a: nat, b: nat)
    requires b > 0
    ensures (a / b) * b <= a < (a / b + 1) * b
  {
  }

  /** Changing only alignment_offset cannot move the boundary of a device without an optimal I/O size. */
  lemma OffsetIgnoredWithoutOptimalSize(dev: string, files: SysfsFiles, offset: nat)
    requires Info(dev, files).Ok?
    requires Info(dev, files).value["optimal_io_size"] == 0
    ensures var files' := files[QueuePath(DeviceNames.DeviceName(dev).value, "alignment_offset") := offset];
      Info(dev, files').Ok? &&
      Info(dev, files').value["alignment_boundary"] == Info(dev, files).value["alignment_boundary"] == MiB
  {
    var name := DeviceNames.DeviceName(dev).value;
    var offsetPath := QueuePath(name, "alignment_offset");
    var files' := files[offsetPath := offset];
    assert offsetPath != QueuePath(name, "optimal_io_size") by {
      assert QueuePath(name, "optimal_io_size")[|"/sys/block/" + name + "/queue/"|] == 'o';
      assert offsetPath[|"/sys/block/" + name + "/queue/"|] == 'a';
    }
    assert offsetPath != QueuePath(name, "physical_block_size") by {
      assert QueuePath(name, "physical_block_size")[|"/sys/block/" + name + "/queue/"|] == 'p';
      assert offsetPath[|"/sys/block/" + name + "/queue/"|] == 'a';
    }
    assert offsetPath != QueuePath(name, "minimum_io_size") by {
      assert QueuePath(name, "minimum_io_size")[|"/sys/block/" + name + "/queue/"|] == 'm';
      assert offsetPath[|"/sys/block/" + name + "/queue/"|] == 'a';
    }
    assert offsetPath != SizePath(name) by {
      assert SizePath(name)[5] == 'c';
      assert offsetPath[5] == 'b';
    }
  }

  /**
   * Two typical devices: with 512-byte blocks and no optimal I/O size the
   * boundary is 2048 sectors; with an optimal I/O size of 4096 it is 8.
   */
  lemma TypicalGeometries(rd: Readings)
    requires rd.physicalBlockSize == 512 && OffsetOrZero(rd) == 0
    requires rd.optimalIoSize in {0, 4096}
    ensures Report(rd)["alignment_boundary"] == if rd.optimalIoSize == 0 then MiB else 4096
    ensures Report(rd)["first_partition_offset_sectors"] == if rd.optimalIoSize == 0 then 2048 else 8
  {
  }

  /**
   * Nothing makes the boundary at least one block: an optimal I/O size
   * smaller than the physical block size gives a boundary of 0 sectors.
   */
  lemma BoundaryCanBeZeroSectors(rd: Readings)
    requires rd.optimalIoSize == 512 && OffsetOrZero(rd) == 0 && rd.physicalBlockSize == 4096
    ensures Report(rd)["alignment_boundary_sectors"] == 0
  {
  }
}
