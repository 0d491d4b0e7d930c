# make_alpine_rpi utilities in Dafny

This project models the pure logic of `make_alpine_rpi/util.py`. That is the helper module of
a script that builds a bootable Alpine Linux image for a Raspberry Pi. Three pieces of it are
modelled, with their error paths:

- `parse_size` and its `units` table (module `SizeParsing`, on top of `Text`).
  It turns a size argument such as `"4G"`, `"5KB"` or `" 40 G"` into a byte count.
  The input is upper-cased. Unless it begins with a space, it is rewritten with
  `re.sub(r'([KMGT]?B?)', r' \1', ...)`. The result is split on whitespace and must unpack
  into a number and a unit. `Rewrite` states that regular-expression rewrite exactly, as
  Python 3.7 and later compute it. The pattern also matches the empty string, so a space goes
  before every unit run (`K`, `KB`, `B`, ...), before every other single character, and once
  more at the end.
- `devicename_from_dev_file` (module `DeviceNames`). It matches `/dev/(\w+)` at the start of a
  path and returns the greedy run of word characters.
- `block_device_info` (module `BlockDeviceInfo`). It reads five sysfs values and derives the
  alignment boundary:
  - the boundary is 1 MiB when `optimal_io_size` is 0, else `optimal_io_size + alignment_offset`;
  - the boundary and first-partition offset in sectors are the boundary divided by the physical
    block size.

  The sysfs tree is a parameter: a map from file path to the integer that file holds. The
  method `BlockDeviceInfo.BlockDeviceInfo` builds the result dictionary one key at a time, as
  the source does. It is proved equal to the specification function `Info`, and the properties
  are lemmas about `Info`.

Python exceptions become `Err` values of `Outcomes.Result`:

- for `parse_size`: a wrong token count, a number that does not parse, or an unknown unit;
- for `devicename_from_dev_file`: an unparseable device name;
- for `block_device_info`: a missing sysfs file, or division by a zero block size.

Nothing rejects a boundary smaller than one physical block; `BoundaryCanBeZeroSectors` shows such a result.

## Model

| member | source | states |
|---|---|---|
| `SizeParsing.UnitTable` | make_alpine_rpi/util.py:30 | the table has exactly the keys B, K, KB, M, MB, G, GB, T, TB; B is 1, and each letter is the same power of 1024 with or without the trailing B |
| `SizeParsing.UnitKeys` | make_alpine_rpi/util.py:30 | a string is a key of the table exactly when it is a non-empty match of `[KMGT]?B?` |
| `Text.Upper` | make_alpine_rpi/util.py:34 | `str.upper()` keeps the length and upper-cases each character (ASCII letters only) |
| `Text.Split` | make_alpine_rpi/util.py:38 | `str.split()` yields non-empty tokens that contain no whitespace, and no tokens exactly when the input is all whitespace |
| `Text.SplitLeadingSpace` | make_alpine_rpi/util.py:38 | leading whitespace produces no token |
| `Text.SplitAfterToken` | make_alpine_rpi/util.py:38 | a maximal whitespace-free run is split off as one token, in order before the tokens of the rest; with the two rows above and the empty case this fixes the result on every input |
| `Text.SplitJoin` | make_alpine_rpi/util.py:38 | splitting words joined by single spaces gives back the words |
| `SizeParsing.Rewrite` | make_alpine_rpi/util.py:37 | the rewritten string is non-empty and begins with a space |
| `SizeParsing.UnitRunLength` | make_alpine_rpi/util.py:37 | the greedy match of `[KMGT]?B?`: empty exactly when the next character is no unit character, two characters exactly for a unit letter followed by B |
| `SizeParsing.PiecesConcat` | make_alpine_rpi/util.py:37 | the pieces the rewrite separates are consecutive parts that make up the input |
| `SizeParsing.PiecesGreedy` | make_alpine_rpi/util.py:37 | the pieces follow the greedy match: a unit letter standing alone as a piece is never followed by B |
| `SizeParsing.RewriteSpaced` | make_alpine_rpi/util.py:37 | the rewrite is each piece with a space in front, followed by one more space |
| `SizeParsing.Prepare` | make_alpine_rpi/util.py:36-37 | the prepared string of a non-empty input always begins with a space; an input that already begins with a space is kept as it is; the empty input becomes a single space |
| `SizeParsing.ParseSize` | make_alpine_rpi/util.py:33-39 | the parse succeeds exactly when the tokens of the upper-cased, prepared input are a decimal number and a unit key, and is then number times multiplier |
| `SizeParsing.SplitRewrite` | make_alpine_rpi/util.py:37-38 | splitting the rewritten string yields exactly the pieces of the input (unit runs and single characters) that are not whitespace |
| `SizeParsing.FromTokens` | make_alpine_rpi/util.py:38-39 | the parse succeeds exactly when there are two tokens, the first a decimal number and the second a unit key; the value is then number times multiplier; any other token count is the unpacking error |
| `SizeParsing.DecimalRoundTrip` | make_alpine_rpi/util.py:39 | the number token's value inverts decimal spelling |
| `SizeParsing.CaseInsensitive` | make_alpine_rpi/util.py:34 | two inputs that agree up to letter case parse to the same result |
| `SizeParsing.SpacedInputIsSplitOnly` | make_alpine_rpi/util.py:36-38 | an input that begins with a space is split without being rewritten |
| `SizeParsing.SpacedRoundTrip` | make_alpine_rpi/util.py:36-39 | a space, any decimal number, a space and any unit (in any case) parse to the number times the unit's multiplier |
| `SizeParsing.SpacedExample` | make_alpine_rpi/util.py:36-39 | `" 40 G"` parses to 40 GiB |
| `SizeParsing.UnspacedTokens` | make_alpine_rpi/util.py:36-38 | without a leading space, the tokens are exactly the non-blank pieces of the upper-cased input |
| `SizeParsing.UnspacedSuccess` | make_alpine_rpi/util.py:37-39 | without a leading space, success means exactly two non-blank pieces: one digit and a unit key; the result is that digit times the multiplier, at most 9 TiB |
| `SizeParsing.UnspacedLongNumberFails` | make_alpine_rpi/util.py:37-38 | without a leading space, two leading characters that are neither whitespace nor the start of a unit run make the parse fail |
| `SizeParsing.BareNumberFails` | make_alpine_rpi/util.py:37-38 | a bare decimal number without a unit never parses |
| `SizeParsing.DigitAndUnit` | make_alpine_rpi/util.py:37-39 | one digit glued to any unit key, in any letter case, parses to the digit times the multiplier |
| `SizeParsing.RejectedExamples` | make_alpine_rpi/util.py:37-38 | `"40G"`, `"1.5G"`, `"4096"`, `"40"` and `"KB"` are rejected |
| `SizeParsing.FortyGibibytes` | make_alpine_rpi/util.py:37 | `"40G"` is rejected as written and parses to 40 GiB with the corrected rewrite |
| `SizeParsing.RewriteUnitsPieces` | make_alpine_rpi/util.py:37 | the corrected rewrite cuts the input into the same pieces as the original, with a space only before the unit runs and none at the end |
| `SizeParsing.FixedRoundTrip` | make_alpine_rpi/util.py:37-39 | with only non-empty unit runs spaced, any decimal number glued to any unit parses to number times multiplier |
| `SizeParsing.FixedAgreesWhenSpaced` | make_alpine_rpi/util.py:36-38 | the corrected parser agrees with the source on every input that begins with a space |
| `DeviceNames.WordRunLength` | make_alpine_rpi/util.py:50 | `\w+` is greedy: the run consists of word characters and is followed by a non-word character or the end |
| `DeviceNames.DeviceName` | make_alpine_rpi/util.py:49-53 | a name is found exactly when the path starts with `/dev/` and a word character; the name is then non-empty, consists of word characters, follows `/dev/` directly and is not followed by a word character; otherwise the unparseable-name error |
| `DeviceNames.DeviceNameRoundTrip` | make_alpine_rpi/util.py:50-52 | `/dev/` + a word + nothing or a non-word character and more gives back the word |
| `DeviceNames.DeviceNameOfWholePath` | make_alpine_rpi/util.py:50-52 | `/dev/` + a word gives back the word |
| `DeviceNames.PartitionPathExample` | make_alpine_rpi/util.py:50-52 | `"/dev/sda1/x"` gives `"sda1"` |
| `DeviceNames.RejectedPaths` | make_alpine_rpi/util.py:53 | `"/dev/"`, `"/nonexistent/path"`, `"/dev//sda"` and `"dev/sda"` raise the unparseable-name error |
| `BlockDeviceInfo.ReadingsOf` | make_alpine_rpi/util.py:67-89 | the reads succeed exactly when the size, optimal_io_size, minimum_io_size and physical_block_size files exist; a missing size file is the error whatever else is missing; an error names a missing file; an offset is read exactly when its file exists |
| `BlockDeviceInfo.Info` | make_alpine_rpi/util.py:66-103 | the name error is raised exactly when the device path does not parse; a file-not-found error names a file that is missing; a result has exactly the eight keys |
| `BlockDeviceInfo.BlockDeviceInfo` | make_alpine_rpi/util.py:63-103 | building the dictionary key by key returns exactly `Info`: the name error, the first missing mandatory file, division by zero, or the eight derived values |
| `BlockDeviceInfo.InfoFailsExactly` | make_alpine_rpi/util.py:66-101 | the call fails exactly for an unparseable name, a missing size, optimal_io_size, minimum_io_size or physical_block_size file, or a zero physical block size |
| `BlockDeviceInfo.ReportsNamedDevice` | make_alpine_rpi/util.py:67-89 | the result has exactly the eight keys and holds the values of the files of the device that the path names |
| `BlockDeviceInfo.AlignmentOffsetDefaultsToZero` | make_alpine_rpi/util.py:80-85 | alignment_offset is the file's value when it exists and 0 when it does not |
| `BlockDeviceInfo.AlignmentBoundaryRule` | make_alpine_rpi/util.py:93-96 | the boundary is 1 MiB when optimal_io_size is 0 and otherwise optimal_io_size plus alignment_offset; it is never 0 |
| `BlockDeviceInfo.OffsetIgnoredWithoutOptimalSize` | make_alpine_rpi/util.py:93-94 | with optimal_io_size 0, any alignment_offset gives the same 1 MiB boundary |
| `BlockDeviceInfo.BoundarySectorsRoundDown` | make_alpine_rpi/util.py:98-101 | both sector counts are equal and are the boundary divided by the block size, rounded down |
| `BlockDeviceInfo.TypicalGeometries` | make_alpine_rpi/util.py:93-101 | with 512-byte blocks, no optimal size gives 2048 sectors and an optimal size of 4096 gives 8 |
| `BlockDeviceInfo.BoundaryCanBeZeroSectors` | make_alpine_rpi/util.py:98-99 | an optimal size of 512 with 4096-byte blocks gives a boundary of 0 sectors; nothing rejects it |

## Findings

| source | as written | input that shows it | evidently intended | confidence | as-written member | corrected member |
|---|---|---|---|---|---|---|
| make_alpine_rpi/util.py:37 | `[KMGT]?B?` also matches the empty string, so a space goes before every digit. A number of more than one digit glued to its unit then gives three or more tokens, and the unpack raises. The script feeds `--imagesize` through this function. | `"40G"` (likewise `"16G"`, `"1.5G"`) | `"40G"` parses to 40 GiB: only a non-empty unit run, `([KMGT]B?\|B)`, gets a space in front | not executed; high | `SizeParsing.UnspacedLongNumberFails` | `SizeParsing.FixedRoundTrip` |

## Left out

- `humanbytes` (util.py:8-26): floating-point division and `.2f` formatting.
- `legal_block_dev_file` (util.py:44-46): it stats the file system, which is outside the model.
- `block_device_size_sectors` (util.py:56-60): a single sysfs read with no logic beyond the name parse already modelled.
- `logged_subcommand_run` (util.py:106-118): it starts a subprocess and writes to a logger.
- `make_alpine_rpi/make_alpine_rpi.py`: downloads, checksums, `mkfs`, `mcopy` and argument parsing; there is no logic beyond the one call into `parse_size`. Its commented-out partitioning shell is not code.
- File reading in `block_device_info`: opening the files and `int(readline())` are abstracted into a map from path to integer. A file that exists but holds no integer is not modelled.
- `Text.Upper`: only ASCII letters are upper-cased. Python's full Unicode `str.upper()` also changes other letters, some into two characters (`"ß"` becomes `"SS"`).
- `DeviceNames.IsWordChar`: `\w` is restricted to ASCII `[A-Za-z0-9_]`. Python's `\w` on `str` also matches Unicode letters and digits.
- `SizeParsing.FromTokens`: `float(number)` is modelled only for ASCII digit strings. Decimal fractions, exponents, signs, underscores, `inf`/`nan` and non-ASCII digits are reported as not-a-number, although Python accepts them (for instance `" 1.5 G"`).
- `SizeParsing.FromTokens`: `int(float(number) * multiplier)` is modelled as the exact product. That matches Python only while the number is below 2^53; larger numbers are rounded by the float conversion.
- `BlockDeviceInfo.Info`: sysfs values are natural numbers. A misaligned device can report an `alignment_offset` of -1, which is not modelled.
- `BlockDeviceInfo.Info`: `int(a / b)` is modelled as exact integer division. Python's float division rounds above 2^53.
