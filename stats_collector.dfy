/**
  The deterministic part of `fetchStats`: once the profile and the repository
  list have been fetched and parsed, the stars are summed with a left fold
  starting from 0, and the three numbers are packed into the stats record.
 */
module StatsCollector {

  /** The one field of a repository entry that the fold reads. */
  datatype Repo = Repo(stargazersCount: nat)

  /** The two fields of the parsed user profile that the record copies. */
  datatype UserData = UserData(publicRepos: nat, followers: nat)

  /** The record handed to the card renderer: `{ repos, stars, followers }`. */
  datatype Stats = Stats(repos: nat, stars: nat, followers: nat)

  /** `repos.reduce((acc, repo) => acc + repo.stargazers_count, acc)`, left to right. */
  function FoldStars(acc: nat, repos: seq<Repo>): nat
    decreases |repos|
  {
    if repos == [] then acc else FoldStars(acc + repos[0].stargazersCount, repos[1..])
  }

  /**
    The star total as the source computes it, the fold from an initial 0; it is
    the sum of every repository's stargazer count.
   */
  function StarTotal(repos: seq<Repo>): (r: nat)
    ensures r == SumStars(repos)
  {
    FoldStarsIsSum(0, repos);
    FoldStars(0, repos)
  }

  /** Reference definition of the sum of stargazer counts, last entry peeled off. */
  function SumStars(repos: seq<Repo>): nat
    decreases |repos|
  {
    if repos == [] then 0 else SumStars(repos[..|repos| - 1]) + repos[|repos| - 1].stargazersCount
  }

  /** The sum of a concatenation is the sum of its parts. */
  lemma {:induction false} SumStarsAppend(a: seq<Repo>, b: seq<Repo>)
    ensures SumStars(a + b) == SumStars(a) + SumStars(b)
    decreases |b|
  {
    if b != [] {
      var init := b[..|b| - 1];
      assert (a + b)[..|a + b| - 1] == a + init;
      SumStarsAppend(a, init);
    } else {
      assert a + b == a;
    }
  }

  /** Folding from `acc` adds the reference sum to `acc`. */
  lemma {:induction false} FoldStarsIsSum(acc: nat, repos: seq<Repo>)
    ensures FoldStars(acc, repos) == acc + SumStars(repos)
    decreases |repos|
  {
    if repos != [] {
      FoldStarsIsSum(acc + repos[0].stargazersCount, repos[1..]);
      SumStarsAppend([repos[0]], repos[1..]);
      assert [repos[0]] + repos[1..] == repos;
      assert SumStars([repos[0]]) == repos[0].stargazersCount by {
        assert [repos[0]][..0] == [];
      }
    }
  }

  /** An empty repository list yields no stars. */
  lemma StarTotalEmpty()
    ensures StarTotal([]) == 0
  {
  }

  /** Appending one repository adds exactly its stargazer count. */
  lemma StarTotalAppendOne(repos: seq<Repo>, r: Repo)
    ensures StarTotal(repos + [r]) == StarTotal(repos) + r.stargazersCount
  {
    assert (repos + [r])[..|repos + [r]| - 1] == repos;
  }

  /** The total of two lists read one after the other is the sum of their totals. */
  lemma StarTotalConcat(a: seq<Repo>, b: seq<Repo>)
    ensures StarTotal(a + b) == StarTotal(a) + StarTotal(b)
  {
    SumStarsAppend(a, b);
  }

  /** No single repository has more stars than the total. */
  lemma StarTotalBoundsEach(repos: seq<Repo>, i: nat)
    requires i < |repos|
    ensures repos[i].stargazersCount <= StarTotal(repos)
  {
    StarTotalConcat(repos[..i], repos[i..]);
    assert repos[..i] + repos[i..] == repos;
    StarTotalConcat([repos[i]], repos[i + 1..]);
    assert [repos[i]] + repos[i + 1..] == repos[i..];
    StarTotalAppendOne([], repos[i]);
    assert [] + [repos[i]] == [repos[i]];
  }

  /** The record built at the end of `fetchStats` from the parsed responses. */
  function StatsOf(user: UserData, repos: seq<Repo>): (s: Stats)
    ensures s.repos == user.publicRepos
    ensures s.followers == user.followers
    ensures s.stars == SumStars(repos)
  {
    Stats(user.publicRepos, StarTotal(repos), user.followers)
  }

  /**
    An example: a profile with 5 public repositories and 12 followers,
    whose repositories have 3 and 7 stars, gives the record (5, 10, 12).
   */
  lemma WorkedExampleStats()
    ensures StatsOf(UserData(5, 12), [Repo(3), Repo(7)]) == Stats(5, 10, 12)
  {
    assert [Repo(3), Repo(7)][..1] == [Repo(3)];
    assert [Repo(3)][..0] == [];
  }
}
