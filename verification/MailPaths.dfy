/** Where a letter's file goes: the path rewrites that move it between `new`, `tmp` and `current`. */
module MailPaths {
  import opened Text

  /** A directory inside a path. */
  function Dir(name: string): string { "/" + name + "/" }

  const NEW_DIR := Dir("new")
  const TMP_DIR := Dir("tmp")
  const CURRENT_DIR := Dir("current")

  /** The first occurrence of one directory replaced by another; without one the source follows a null pointer. */
  function Swap(path: string, from: string, to: string): Option<string> {
    match Find(path, from)
    case None => None
    case Some(i) => Some(path[..i] + to + path[i + |from|..])
  }

  function InTempDirectory(path: string): Option<string> { Swap(path, NEW_DIR, TMP_DIR) }

  function InNewDirectory(path: string): Option<string> { Swap(path, TMP_DIR, NEW_DIR) }

  function InCurrentDirectory(path: string): Option<string> { Swap(path, TMP_DIR, CURRENT_DIR) }

  // ------------------------------------------------------------------- any path

  /** Swapping directories of the same length changes nothing else. */
  lemma Swapped(path: string, from: string, to: string)
    requires Find(path, from).Some? && |from| == |to|
    ensures var (i, q) := (Find(path, from).value, Swap(path, from, to).value);
            && |q| == |path| && Text.At(q, to, i)
            && forall k | 0 <= k < |path| && !(i <= k < i + |from|) :: q[k] == path[k]
  {
  }

  /** What stands before the swapped directory is what stood there. */
  lemma SameBefore(path: string, j: nat)
    requires Find(path, NEW_DIR).Some? && j < Find(path, NEW_DIR).value
    ensures Text.At(InTempDirectory(path).value, TMP_DIR, j) <==> Text.At(path, TMP_DIR, j)
  {
    var (i, q) := (Find(path, NEW_DIR).value, InTempDirectory(path).value);
    Swapped(path, NEW_DIR, TMP_DIR);
    assert path[i..i + 5][0] == path[i] == '/' && q[i..i + 5][0] == q[i] == '/';
    if Text.At(q, TMP_DIR, j) {
      NoSlashInside(q, j, i);
    }
    if Text.At(path, TMP_DIR, j) {
      NoSlashInside(path, j, i);
    }
    assert j + 4 <= i ==> path[j..j + 5] == q[j..j + 5];
  }

  lemma NoSlashInside(p: string, j: nat, i: nat)
    requires Text.At(p, TMP_DIR, j) && j < i < |p| && p[i] == '/'
    ensures j + 4 <= i
  {
    assert p[j..j + 5] == ['/', 't', 'm', 'p', '/'];
    assert p[j + 1] == p[j..j + 5][1] && p[j + 2] == p[j..j + 5][2] && p[j + 3] == p[j..j + 5][3];
  }

  /** Moving a letter to `tmp` and back restores its path exactly when no directory `tmp` stands before the first
      directory `new` of the path. */
  lemma RoundTrip(path: string)
    requires Find(path, NEW_DIR).Some?
    ensures InNewDirectory(InTempDirectory(path).value) == Some(path)
            <==> forall j: nat | j < Find(path, NEW_DIR).value :: !Text.At(path, TMP_DIR, j)
  {
    var (i, q) := (Find(path, NEW_DIR).value, InTempDirectory(path).value);
    Swapped(path, NEW_DIR, TMP_DIR);
    forall j: nat | j < i ensures Text.At(q, TMP_DIR, j) <==> Text.At(path, TMP_DIR, j) {
      SameBefore(path, j);
    }
    var k := Find(q, TMP_DIR).value;
    Swapped(q, TMP_DIR, NEW_DIR);
    var r := InNewDirectory(q).value;
    if k == i {
      assert r[i..i + 5] == NEW_DIR == path[i..i + 5];
      assert r == path;
    } else {
      assert path[k..k + 5] == TMP_DIR && r[k..k + 5] == NEW_DIR;
    }
  }

  // ------------------------------------------------------ the paths the program builds

  /** A letter's file in one of the three-letter directories of a user. */
  function UserPath(user: string, dir: string, file: string): string {
    "./maildir/" + user + "/Maildir/" + dir + "/" + file
  }

  predicate Plain(name: string) { '/' !in name }

  lemma SlashesOf(user: string, dir: string, file: string, k: nat)
    requires Plain(user) && Plain(dir) && Plain(file) && |dir| == 3 && k < |UserPath(user, dir, file)|
    ensures var n := |user|;
            UserPath(user, dir, file)[k] == '/' <==> k == 1 || k == 9 || k == n + 10 || k == n + 18 || k == n + 22
  {
    var p := UserPath(user, dir, file);
    var n := |user|;
    var head := "./maildir/";
    var mid := "/Maildir/";
    if k < 10 {
      assert p[k] == head[k];
    } else if k < n + 10 {
      assert p[k] == user[k - 10];
    } else if k < n + 19 {
      assert p[k] == mid[k - n - 10];
    } else if k < n + 22 {
      assert p[k] == dir[k - n - 19];
    } else if k > n + 22 {
      assert p[k] == file[k - n - 23];
    }
  }

  lemma AtBetween(p: string, sought: string, j: nat)
    requires |sought| == 3 && j + 5 <= |p|
    ensures Text.At(p, Dir(sought), j) <==> p[j] == '/' && p[j + 4] == '/' && p[j + 1..j + 4] == sought
  {
    var (pattern, cut) := (Dir(sought), p[j..j + 5]);
    assert pattern == ['/', sought[0], sought[1], sought[2], '/'];
    assert cut == [p[j], p[j + 1], p[j + 2], p[j + 3], p[j + 4]];
    assert p[j + 1..j + 4] == [p[j + 1], p[j + 2], p[j + 3]];
    assert sought == [sought[0], sought[1], sought[2]];
  }

  /** Where a three-letter directory can be found in such a path. */
  lemma DirectoryAt(user: string, dir: string, file: string, sought: string, j: nat)
    requires Plain(user) && Plain(dir) && Plain(file) && Plain(sought) && |dir| == 3 && |sought| == 3
    ensures Text.At(UserPath(user, dir, file), Dir(sought), j)
            <==> (j == 9 && user == sought) || (j == |user| + 18 && dir == sought)
  {
    var (p, n) := (UserPath(user, dir, file), |user|);
    if j + 5 <= |p| {
      SlashesOf(user, dir, file, j);
      SlashesOf(user, dir, file, j + 4);
      AtBetween(p, sought, j);
      if j == 9 && n == 3 {
        assert p[10..13] == user;
      }
      if j == n + 18 {
        assert p[n + 19..n + 22] == dir;
      }
    }
  }

  /** The directory that a search finds first. */
  lemma DirectoryFound(user: string, dir: string, file: string, sought: string)
    requires Plain(user) && Plain(dir) && Plain(file) && Plain(sought) && |dir| == 3 && |sought| == 3
    ensures Find(UserPath(user, dir, file), Dir(sought)) ==
            if user == sought then Some(9) else if dir == sought then Some(|user| + 18) else None
  {
    var (p, pattern) := (UserPath(user, dir, file), Dir(sought));
    forall j: nat
      ensures Text.At(p, pattern, j) <==> (j == 9 && user == sought) || (j == |user| + 18 && dir == sought)
    {
      DirectoryAt(user, dir, file, sought, j);
    }
    if user == sought {
      FindIs(p, pattern, 9);
    } else if dir == sought {
      FindIs(p, pattern, |user| + 18);
    }
  }

  lemma SwapIs(p: string, a: string, from: string, b: string, to: string)
    requires p == a + from + b && Find(p, from) == Some(|a|)
    ensures Swap(p, from, to) == Some(a + to + b)
  {
    assert p[..|a|] == a && p[|a| + |from|..] == b;
  }

  /** The path taken apart at the user, and at the directory. */
  lemma PathParts(user: string, dir: string, file: string)
    ensures UserPath(user, dir, file) == "./maildir" + Dir(user) + ("Maildir/" + dir + "/" + file)
    ensures UserPath(user, dir, file) == "./maildir/" + user + "/Maildir" + Dir(dir) + file
  {
  }

  /** A swap renames the user if the user has the sought name, and otherwise the directory. */
  lemma SwapAt(user: string, dir: string, file: string, sought: string, other: string)
    requires Plain(user) && Plain(dir) && Plain(file) && Plain(sought) && |dir| == 3 && |sought| == 3
    ensures Swap(UserPath(user, dir, file), Dir(sought), Dir(other)) ==
            if user == sought then Some(UserPath(other, dir, file))
            else if dir == sought then Some(UserPath(user, other, file))
            else None
  {
    DirectoryFound(user, dir, file, sought);
    PathParts(user, dir, file);
    if user == sought {
      PathParts(other, dir, file);
      SwapIs(UserPath(user, dir, file), "./maildir", Dir(sought), "Maildir/" + dir + "/" + file, Dir(other));
    } else if dir == sought {
      PathParts(user, other, file);
      SwapIs(UserPath(user, dir, file), "./maildir/" + user + "/Maildir", Dir(sought), file, Dir(other));
    }
  }

  lemma OtherUser(user: string, other: string, dir: string, dir': string, file: string)
    requires user != "" && other != "" && user[0] != other[0]
    ensures UserPath(user, dir, file) != UserPath(other, dir', file)
  {
    assert UserPath(user, dir, file)[10] == user[0] && UserPath(other, dir', file)[10] == other[0];
  }

  /** From `new` to `tmp` and back: the original path comes back for every user but one called "tmp". For a user called
      "new" the letter meanwhile stands in another user's mail. */
  lemma UserRoundTrip(user: string, file: string)
    requires Plain(user) && Plain(file)
    ensures var p := UserPath(user, "new", file);
            && InTempDirectory(p)
               == Some(if user == "new" then UserPath("tmp", "new", file) else UserPath(user, "tmp", file))
            && (InNewDirectory(InTempDirectory(p).value) == Some(p) <==> user != "tmp")
  {
    SwapAt(user, "new", file, "new", "tmp");
    if user == "new" {
      SwapAt("tmp", "new", file, "tmp", "new");
    } else {
      SwapAt(user, "tmp", file, "tmp", "new");
      OtherUser("new", "tmp", "tmp", "new", file);
    }
  }

  /** A sent letter is filed in its own user's mail exactly when the user is not called "tmp". */
  lemma UserFiled(user: string, file: string)
    requires Plain(user) && Plain(file)
    ensures InCurrentDirectory(UserPath(user, "tmp", file)) == Some(UserPath(user, "current", file)) <==> user != "tmp"
  {
    SwapAt(user, "tmp", file, "tmp", "current");
    OtherUser("current", "tmp", "tmp", "current", file);
  }
}
