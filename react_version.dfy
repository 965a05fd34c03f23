/**
 * The version test in `addUnsafePrefixes`: whether the deprecated lifecycle
 * methods `componentWillMount` and `componentWillUpdate` are renamed to their
 * `UNSAFE_` names, which the framework introduced in version 16.3. Only the
 * test on the parsed major and minor numbers is modelled.
 */
module ReactVersion {

  /** Version `major.minor` is at least `atMajor.atMinor`. */
  predicate AtLeast(major: int, minor: int, atMajor: int, atMinor: int) {
    major > atMajor || (major == atMajor && minor >= atMinor)
  }

  /**
   * The test as written: major and minor are compared separately. It never
   * prefixes a version older than 16.3, and on major version 16 it prefixes
   * from 16.3.
   */
  function ShouldPrefixAsWritten(major: int, minor: int): (r: bool)
    ensures r ==> AtLeast(major, minor, 16, 3)
    ensures major == 16 ==> (r <==> minor >= 3)
  {
    major >= 16 && minor >= 3
  }

  /** Version 17.0 is past 16.3, yet the test as written does not prefix it. */
  lemma AsWrittenSkipsLaterMajor()
    ensures AtLeast(17, 0, 16, 3) && !ShouldPrefixAsWritten(17, 0)
  {
  }

  /** The intended test: the version is 16.3 or later, whatever the minor number past major 16. */
  function ShouldPrefix(major: int, minor: int): (r: bool)
    ensures major > 16 ==> r
    ensures major < 16 ==> !r
    ensures major == 16 ==> (r <==> minor >= 3)
  {
    AtLeast(major, minor, 16, 3)
  }

  /** The intended test is monotone: a later version is prefixed whenever an earlier one is. */
  lemma ShouldPrefixMonotone(major: int, minor: int, laterMajor: int, laterMinor: int)
    requires ShouldPrefix(major, minor)
    requires AtLeast(laterMajor, laterMinor, major, minor)
    ensures ShouldPrefix(laterMajor, laterMinor)
  {
  }

  /** The intended test agrees with the written one on major version 16 and rejects 16.0-16.2. */
  lemma ShouldPrefixOnSixteen(minor: int)
    ensures ShouldPrefix(16, minor) <==> ShouldPrefixAsWritten(16, minor)
    ensures ShouldPrefix(16, minor) <==> minor >= 3
  {
  }
}
