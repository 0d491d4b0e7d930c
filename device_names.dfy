/**
 * devicename_from_dev_file: the short name of a device file such as
 * "/dev/sda1", matched by re.match("/dev/(\w+)", dev) -- anchored at the
 * start only, with a greedy run of word characters.
 */
module DeviceNames {
  import opened Outcomes

  const DevPrefix: string := "/dev/"

  /** The regular-expression class \w, restricted to ASCII. */
  predicate IsWordChar(c: char)
  {
    ('a' <= c <= 'z') || ('A' <= c <= 'Z') || ('0' <= c <= '9') || c == '_'
  }

  /** A non-empty run of word characters: what \w+ can match. */
  predicate IsWord(s: string)
  {
    s != [] && forall i :: 0 <= i < |s| ==> IsWordChar(s[i])
  }

  /** Length of the greedy match of \w* at the start of s. */
  function WordRunLength(s: string): (n: nat)
    ensures n <= |s|
    ensures forall i :: 0 <= i < n ==> IsWordChar(s[i])
    ensures n < |s| ==> !IsWordChar(s[n])
  {
    if s == [] || !IsWordChar(s[0]) then 0 else 1 + WordRunLength(s[1..])
  }

  /** The exception raised for a path that does not match. */
  datatype DeviceNameError = Unparseable(dev: string)

  /**
   * The name is found exactly when dev starts with "/dev/" and a word
   * character; it is then the longest run of word characters after the prefix.
   */
  function DeviceName(dev: string): (r: Result<string, DeviceNameError>)
    ensures r.Ok? <==> |dev| > |DevPrefix| && dev[..|DevPrefix|] == DevPrefix && IsWordChar(dev[|DevPrefix|])
    ensures r.Ok? ==> IsWord(r.value) && |DevPrefix| + |r.value| <= |dev|
    ensures r.Ok? ==> dev[..|DevPrefix| + |r.value|] == DevPrefix + r.value
    ensures r.Ok? && |DevPrefix| + |r.value| < |dev| ==> !IsWordChar(dev[|DevPrefix| + |r.value|])
    ensures r.Err? ==> r == Err(Unparseable(dev))
  {
    if |dev| >= |DevPrefix| && dev[..|DevPrefix|] == DevPrefix then
      var n := WordRunLength(dev[|DevPrefix|..]);
      if n > 0 then Ok(dev[|DevPrefix|..|DevPrefix| + n]) else Err(Unparseable(dev))
    else
      Err(Unparseable(dev))
  }

  /**
   * Any word behind "/dev/", followed by nothing or by a non-word character
   * (such as "/"), is returned as the name.
   */
  lemma DeviceNameRoundTrip(name: string, rest: string)
    requires IsWord(name)
    requires rest == [] || !IsWordChar(rest[0])
    ensures DeviceName(DevPrefix + name + rest) == Ok(name)
  {
    var dev := DevPrefix + name + rest;
    assert dev[..|DevPrefix|] == DevPrefix;
    assert dev[|DevPrefix|..] == name + rest;
    var n := WordRunLength(name + rest);
    assert forall i :: 0 <= i < |name| ==> (name + rest)[i] == name[i];
    assert rest != [] ==> (name + rest)[|name|] == rest[0];
    assert n == |name|;
    assert dev[|DevPrefix|..|DevPrefix| + n] == name;
  }

  /** A path that is "/dev/" and a word names that word. */
  lemma DeviceNameOfWholePath(name: string)
    requires IsWord(name)
    ensures DeviceName(DevPrefix + name) == Ok(name)
  {
    DeviceNameRoundTrip(name, []);
    assert DevPrefix + name + [] == DevPrefix + name;
  }

  /** Paths outside /dev/, and /dev/ itself, are rejected. */
  lemma RejectedPaths(dev: string)
    requires dev in {"/dev/", "/nonexistent/path", "/dev//sda", "dev/sda"}
    ensures DeviceName(dev) == Err(Unparseable(dev))
  {
    if dev == "/nonexistent/path" {
      assert dev[1] != DevPrefix[1];
    } else if dev == "dev/sda" {
      assert dev[0] != DevPrefix[0];
    }
  }

  /** Whatever follows the name after a slash is ignored. */
  lemma PartitionPathExample(dev: string)
    requires dev == "/dev/sda1/x"
    ensures DeviceName(dev) == Ok("sda1")
  {
    var name := dev[5..9];
    assert name == "sda1" && IsWord(name);
    assert dev == DevPrefix + name + "/x";
    DeviceNameRoundTrip(name, "/x");
  }
}
