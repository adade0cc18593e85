/** The exact strings the package's tests expect in the output buffer
    (fixture_test.go:50), assembled from the pieces each hook call and body
    writes. Plain string facts, kept apart from the model. */
module Expected {
  /** The expected string of fixture_test.go:50, piece by piece. */
  lemma LifecycleString()
    ensures "" + "::BeforeAll"
            + (("" + "::BeforeEach" + "Test#1" + "" + "::AfterEach")
               + ("" + "::BeforeEach" + "Test#2" + "" + "::AfterEach"))
            + ("" + "::AfterAll")
            == "::BeforeAll::BeforeEachTest#1::AfterEach::BeforeEachTest#2::AfterEach::AfterAll"
  {
    Regroup("" + "::BeforeAll", "" + "::BeforeEach" + "Test#1" + "" + "::AfterEach",
            "" + "::BeforeEach" + "Test#2" + "" + "::AfterEach", "" + "::AfterAll");
    LifecycleFirstHalf();
    LifecycleSecondHalf();
    LifecycleHalves();
  }

  lemma Regroup(a: string, r1: string, r2: string, z: string)
    ensures a + (r1 + r2) + z == (a + r1) + (r2 + z)
  {
  }

  lemma LifecycleFirstHalf()
    ensures "" + "::BeforeAll" + ("" + "::BeforeEach" + "Test#1" + "" + "::AfterEach")
            == "::BeforeAll::BeforeEachTest#1::AfterEach"
  {
  }

  lemma LifecycleSecondHalf()
    ensures ("" + "::BeforeEach" + "Test#2" + "" + "::AfterEach") + ("" + "::AfterAll")
            == "::BeforeEachTest#2::AfterEach::AfterAll"
  {
  }

  lemma LifecycleHalves()
    ensures "::BeforeAll::BeforeEachTest#1::AfterEach" + "::BeforeEachTest#2::AfterEach::AfterAll"
            == "::BeforeAll::BeforeEachTest#1::AfterEach::BeforeEachTest#2::AfterEach::AfterAll"
  {
  }
}
