/** The landing page (app/page.tsx): the success-story carousel. */
module Landing {

  /** `successStories.length`: the page shows three stories. */
  const StoryCount: nat := 3

  /** `nextStory`'s new index, `(i + 1) % n`. */
  function NextIndex(i: nat, n: nat): (r: nat)
    requires n > 0
    ensures r < n
    ensures i + 1 < n ==> r == i + 1
    ensures i + 1 == n ==> r == 0
  {
    (i + 1) % n
  }

  /** `prevStory`'s new index, `(i - 1 + n) % n`. */
  function PrevIndex(i: nat, n: nat): (r: nat)
    requires n > 0
    ensures r < n
    ensures 0 < i <= n ==> r == i - 1
    ensures i == 0 ==> r == n - 1
  {
    (i - 1 + n) % n
  }

  /** Previous undoes next, and next undoes previous, on a valid index. */
  lemma NextPrevInverse(i: nat, n: nat)
    requires i < n
    ensures PrevIndex(NextIndex(i, n), n) == i
    ensures NextIndex(PrevIndex(i, n), n) == i
  {
  }

  /** The index after `k` presses of next. */
  function NextTimes(i: nat, n: nat, k: nat): (r: nat)
    requires n > 0
  {
    if k == 0 then i else NextIndex(NextTimes(i, n, k - 1), n)
  }

  lemma ModSucc(a: nat, n: nat)
    requires n > 0
    ensures (a % n + 1) % n == (a + 1) % n
  {
    var q, r := a / n, a % n;
    assert a == q * n + r;
    if r + 1 < n {
      assert a + 1 == q * n + (r + 1);
      ModUnique(a + 1, n, q, r + 1);
    } else {
      assert a + 1 == (q + 1) * n;
      ModUnique(a + 1, n, q + 1, 0);
    }
  }

  lemma ModUnique(a: nat, n: nat, q: int, r: int)
    requires n > 0 && 0 <= r < n && a == q * n + r
    ensures a % n == r
  {
    var q', r' := a / n, a % n;
    assert a == q' * n + r';
    if q' < q {
      assert (q - q') * n == q * n - q' * n;
      MulAtLeast(q - q', n);
    } else if q' > q {
      assert (q' - q) * n == q' * n - q * n;
      MulAtLeast(q' - q, n);
    }
  }

  lemma {:induction false} MulAtLeast(d: int, n: nat)
    requires d >= 1
    ensures d * n >= n
    decreases d
  {
    if d > 1 {
      MulAtLeast(d - 1, n);
      assert d * n == (d - 1) * n + n;
    }
  }

  /** `k` presses of next from a valid index move it `k` places, modulo `n`. */
  lemma {:induction false} NextTimesShifts(i: nat, n: nat, k: nat)
    requires i < n
    ensures NextTimes(i, n, k) == (i + k) % n
  {
    if k == 0 {
      ModUnique(i, n, 0, i);
    } else {
      NextTimesShifts(i, n, k - 1);
      ModSucc(i + k - 1, n);
    }
  }

  /** Pressing next `n` times comes back to where it started. */
  lemma NextCycle(i: nat, n: nat)
    requires i < n
    ensures NextTimes(i, n, n) == i
  {
    NextTimesShifts(i, n, n);
    ModUnique(i + n, n, 1, i);
  }

  class LandingPage {
    var currentStory: nat
    var zipCode: string

    ghost predicate Valid()
      reads this
    {
      currentStory < StoryCount
    }

    constructor ()
      ensures Valid() && currentStory == 0 && zipCode == ""
    {
      currentStory := 0;
      zipCode := "";
    }

    method NextStory()
      requires Valid()
      modifies this
      ensures Valid()
      ensures currentStory == NextIndex(old(currentStory), StoryCount)
      ensures zipCode == old(zipCode)
    {
      currentStory := (currentStory + 1) % StoryCount;
    }

    method PrevStory()
      requires Valid()
      modifies this
      ensures Valid()
      ensures currentStory == PrevIndex(old(currentStory), StoryCount)
      ensures zipCode == old(zipCode)
    {
      currentStory := (currentStory - 1 + StoryCount) % StoryCount;
    }

    /** The ZIP code input of the shelter search form. */
    method SetZipCode(value: string)
      modifies this
      ensures zipCode == value
      ensures currentStory == old(currentStory)
    {
      zipCode := value;
    }

    /** An indicator button; there is one for each story, so `index` is a valid one. */
    method GoToStory(index: nat)
      requires index < StoryCount
      modifies this
      ensures Valid() && currentStory == index
      ensures zipCode == old(zipCode)
    {
      currentStory := index;
    }
  }
}
