/**
  A private directory as names, inodes and link counts, and publication by stage, link and
  unlink.  A process can die between any two steps; the next one clears what it left.
 */
module FileStore {

  /** A published name, the fixed stage of its publication, or the stage of the control record's rewrite. */
  datatype Name<D> = Target(d: D) | Stage(d: D) | Spare

  /** An inode's contents: created but not written out, or a whole record. */
  datatype File<C> = Partial | Whole(content: C)

  datatype Fs<D(==), C> = Fs(names: map<Name<D>, nat>, files: map<nat, File<C>>, next: nat)

  /** What a reader of a published name gets. */
  datatype Read<C> = NotFound | Unreadable | Found(content: C)

  function ReadTarget<D(==), C>(fs: Fs<D, C>, d: D): Read<C>
  {
    if Target(d) !in fs.names then NotFound
    else if fs.names[Target(d)] !in fs.files then Unreadable
    else
      match fs.files[fs.names[Target(d)]]
      case Partial => Unreadable
      case Whole(c) => Found(c)
  }

  /** The names of an inode; their number is its link count. */
  function Links<D(==), C>(fs: Fs<D, C>, inode: nat): set<Name<D>>
  {
    set n | n in fs.names && fs.names[n] == inode
  }

  /**
    Published names hold whole records of their own; an inode has a second name only as a
    stage and the target it was linked to.
   */
  ghost predicate Sound<D(!new), C>(fs: Fs<D, C>)
  {
    && (forall n :: n in fs.names ==> fs.names[n] in fs.files)
    && (forall i :: i in fs.files ==> i < fs.next)
    && (forall n, m :: n in fs.names && m in fs.names && fs.names[n] == fs.names[m] ==> n == m || Pair(n, m))
    && (forall d :: Target(d) in fs.names ==> fs.files[fs.names[Target(d)]].Whole?)
  }

  predicate Pair<D(==)>(n: Name<D>, m: Name<D>)
  {
    (n.Target? && m == Stage(n.d)) || (m.Target? && n == Stage(m.d))
  }

  ghost predicate Private<D(!new), C>(fs: Fs<D, C>, n: Name<D>)
  {
    n in fs.names && forall m :: m in fs.names && fs.names[m] == fs.names[n] ==> m == n
  }

  /** The published records: all that a command reads. */
  ghost function View<D(!new), C>(fs: Fs<D, C>): map<D, C>
  {
    map n | n in fs.names && n.Target? && ReadTarget(fs, n.d).Found? :: n.d := ReadTarget(fs, n.d).content
  }

  lemma ViewReads<D(!new), C>(fs: Fs<D, C>, d: D)
    requires Sound(fs)
    ensures ReadTarget(fs, d) == if d in View(fs) then Found(View(fs)[d]) else NotFound
  {
    assert Target(d) in fs.names ==> ReadTarget(fs, d).Found?;
    assert Target(d).d == d;
  }

  // ---------------------------------------------------------------- system calls

  function Created<D(==), C>(fs: Fs<D, C>, n: Name<D>): Fs<D, C>
  {
    Fs(fs.names[n := fs.next], fs.files[fs.next := Partial], fs.next + 1)
  }

  function Written<D(==), C>(fs: Fs<D, C>, n: Name<D>, c: C): Fs<D, C>
    requires n in fs.names
  {
    fs.(files := fs.files[fs.names[n] := Whole(c)])
  }

  function Linked<D(==), C>(fs: Fs<D, C>, d: D): Fs<D, C>
    requires Stage(d) in fs.names
  {
    fs.(names := fs.names[Target(d) := fs.names[Stage(d)]])
  }

  function Removed<D(==), C>(fs: Fs<D, C>, n: Name<D>): Fs<D, C>
  {
    fs.(names := fs.names - {n})
  }

  function Renamed<D(==), C>(fs: Fs<D, C>, n: Name<D>, d: D): Fs<D, C>
    requires n in fs.names
  {
    fs.(names := (fs.names - {n})[Target(d) := fs.names[n]])
  }

  lemma ViewAgrees<D(!new), C>(fs: Fs<D, C>, view: map<D, C>)
    requires forall d :: ReadTarget(fs, d) == if d in view then Found(view[d]) else NotFound
    ensures View(fs) == view
  {
    forall d ensures d in View(fs) <==> d in view {
      assert Target(d).d == d;
    }
  }

  lemma CreatedSound<D(!new), C>(fs: Fs<D, C>, n: Name<D>)
    requires Sound(fs) && !n.Target? && n !in fs.names
    ensures var f := Created(fs, n); Sound(f) && View(f) == View(fs) && Private(f, n)
  {
    var f := Created(fs, n);
    forall d ensures ReadTarget(f, d) == if d in View(fs) then Found(View(fs)[d]) else NotFound {
      ViewReads(fs, d);
    }
    ViewAgrees(f, View(fs));
  }

  lemma WrittenSound<D(!new), C>(fs: Fs<D, C>, n: Name<D>, c: C)
    requires Sound(fs) && !n.Target? && Private(fs, n)
    ensures var f := Written(fs, n, c);
            Sound(f) && View(f) == View(fs) && Private(f, n) && f.files[f.names[n]] == Whole(c)
  {
    var f := Written(fs, n, c);
    forall d ensures ReadTarget(f, d) == if d in View(fs) then Found(View(fs)[d]) else NotFound {
      ViewReads(fs, d);
    }
    ViewAgrees(f, View(fs));
  }

  lemma LinkedSound<D(!new), C>(fs: Fs<D, C>, d: D, c: C)
    requires Sound(fs) && Private(fs, Stage(d)) && fs.files[fs.names[Stage(d)]] == Whole(c) && Target(d) !in fs.names
    ensures d !in View(fs) && Sound(Linked(fs, d)) && View(Linked(fs, d)) == View(fs)[d := c]
  {
    var f, view := Linked(fs, d), View(fs)[d := c];
    forall e ensures ReadTarget(f, e) == if e in view then Found(view[e]) else NotFound {
      ViewReads(fs, e);
    }
    ViewAgrees(f, view);
  }

  lemma RemovedSound<D(!new), C>(fs: Fs<D, C>, n: Name<D>)
    requires Sound(fs) && !n.Target?
    ensures var f := Removed(fs, n); Sound(f) && View(f) == View(fs) && n !in f.names
  {
    var f := Removed(fs, n);
    forall d ensures ReadTarget(f, d) == if d in View(fs) then Found(View(fs)[d]) else NotFound {
      ViewReads(fs, d);
    }
    ViewAgrees(f, View(fs));
  }

  lemma RenamedSound<D(!new), C>(fs: Fs<D, C>, n: Name<D>, d: D, c: C)
    requires Sound(fs) && !n.Target? && Private(fs, n) && fs.files[fs.names[n]] == Whole(c)
    requires Target(d) in fs.names ==> Stage(d) !in fs.names || n == Stage(d) || fs.names[Stage(d)] != fs.names[n]
    ensures Sound(Renamed(fs, n, d)) && View(Renamed(fs, n, d)) == View(fs)[d := c]
  {
    var f, view := Renamed(fs, n, d), View(fs)[d := c];
    forall e ensures ReadTarget(f, e) == if e in view then Found(view[e]) else NotFound {
      ViewReads(fs, e);
    }
    ViewAgrees(f, view);
  }

  /** The link count of a stage is 1, or 2 with its own target as the other name. */
  lemma StageLinks<D(!new), C>(fs: Fs<D, C>, n: Name<D>)
    requires Sound(fs) && !n.Target? && n in fs.names
    ensures var links := Links(fs, fs.names[n]);
            |links| == 1 || (|links| == 2 && n.Stage? && Target(n.d) in fs.names
                             && fs.names[Target(n.d)] == fs.names[n])
  {
    var links := Links(fs, fs.names[n]);
    if n.Stage? && Target(n.d) in fs.names && fs.names[Target(n.d)] == fs.names[n] {
      assert links == {n, Target(n.d)};
    } else {
      assert links == {n};
    }
  }

  // ---------------------------------------------------------------- a process

  datatype Io = Done | Died | Failed(reason: string)

  /** The directory under the lock of one process, which dies after `left` more system calls. */
  class Directory<D(!new, ==), C(==)> {
    var fs: Fs<D, C>
    var left: nat

    constructor (fs: Fs<D, C>, left: nat)
      ensures this.fs == fs && this.left == left
    {
      this.fs, this.left := fs, left;
    }

    /** Whether the next system call is reached. */
    method Lives() returns (alive: bool)
      modifies this`left
      ensures alive ==> left < old(left)
    {
      alive := left > 0;
      if alive {
        left := left - 1;
      }
    }

    method Unlink(n: Name<D>) returns (r: Io)
      requires Sound(fs) && !n.Target?
      modifies this
      ensures Sound(fs) && View(fs) == old(View(fs))
      ensures r == Died || (r == Done && n !in fs.names && fs == Removed(old(fs), n))
    {
      hide Sound, View;
      var alive := Lives();
      if !alive {
        return Died;
      }
      RemovedSound(fs, n);
      fs := Removed(fs, n);
      return Done;
    }

    /** Stage recovery: it removes a stage left at any crash point, never a published name, and never refuses one. */
    method ClearStage(n: Name<D>) returns (r: Io)
      requires Sound(fs) && !n.Target?
      modifies this
      ensures Sound(fs) && View(fs) == old(View(fs))
      ensures r == Died || (r == Done && n !in fs.names)
    {
      hide Sound, View;
      if n !in fs.names {
        return Done;
      }
      StageLinks(fs, n);
      var links := |Links(fs, fs.names[n])|;
      if links != 1 && links != 2 {
        return Failed("untrusted_file");
      }
      if links == 2 && (!n.Stage? || Target(n.d) !in fs.names || fs.names[Target(n.d)] != fs.names[n]) {
        return Failed("untrusted_file");
      }
      r := Unlink(n);
    }

    /** Create a stage and write a record to it; a death in between leaves it partial. */
    method WriteNew(n: Name<D>, c: C) returns (r: Io)
      requires Sound(fs) && !n.Target? && n !in fs.names
      modifies this
      ensures Sound(fs) && View(fs) == old(View(fs))
      ensures r == Died || (r == Done && Private(fs, n) && fs.files[fs.names[n]] == Whole(c))
    {
      hide Sound, View;
      var alive := Lives();
      if !alive {
        return Died;
      }
      CreatedSound(fs, n);
      fs := Created(fs, n);
      alive := Lives();
      if !alive {
        return Died;
      }
      WrittenSound(fs, n, c);
      fs := Written(fs, n, c);
      return Done;
    }

    /**
      Publish a record under a name that must not exist yet: whatever the crash point, the
      published records are the old ones or the old ones and this one.
     */
    method Publish(d: D, c: C) returns (r: Io)
      requires Sound(fs)
      modifies this
      ensures Sound(fs)
      ensures if d in old(View(fs)) then View(fs) == old(View(fs)) && r != Done
              else match r
                   case Done => View(fs) == old(View(fs))[d := c]
                   case Died => View(fs) == old(View(fs)) || View(fs) == old(View(fs))[d := c]
                   case Failed(_) => false
    {
      hide Sound, View;
      r := ClearStage(Stage(d));
      if r != Done {
        return;
      }
      r := WriteNew(Stage(d), c);
      if r != Done {
        return;
      }
      var alive := Lives();
      if !alive {
        return Died;
      }
      ViewReads(fs, d);
      TargetRead(fs, d);
      if Target(d) in fs.names {
        r := Unlink(Stage(d));
        return if r == Died then Died else Failed("exists");
      }
      LinkedSound(fs, d, c);
      fs := Linked(fs, d);
      r := Unlink(Stage(d));
    }

    /** Replace a published record by renaming a fresh stage over it. */
    method Replace(n: Name<D>, d: D, c: C) returns (r: Io)
      requires Sound(fs) && (n == Stage(d) || n == Spare)
      modifies this
      ensures Sound(fs)
      ensures match r
              case Done => View(fs) == old(View(fs))[d := c]
              case Died => View(fs) == old(View(fs)) || View(fs) == old(View(fs))[d := c]
              case Failed(_) => false
    {
      hide Sound, View;
      r := ClearStage(n);
      if r != Done {
        return;
      }
      r := WriteNew(n, c);
      if r != Done {
        return;
      }
      var alive := Lives();
      if !alive {
        return Died;
      }
      RenamedSound(fs, n, d, c);
      fs := Renamed(fs, n, d);
      return Done;
    }
  }

  lemma TargetRead<D(!new), C>(fs: Fs<D, C>, d: D)
    requires Sound(fs)
    ensures Target(d) in fs.names <==> ReadTarget(fs, d).Found?
  {
  }
}
