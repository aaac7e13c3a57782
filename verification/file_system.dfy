/** An abstract view of the filesystem below the recordings directory, enough to
    follow the storage engine's effects: directories by full path, each mapping file
    names to what the file's header region holds, and a descriptor table. Descriptors
    are tied to the path they were opened at. The PCM payload appended after the
    header is not stored; the engine counts it instead. */
module FileSystem {
  import opened Wrappers
  import WavEncoder

  /** The header region of a file: empty after `openSync(path, "w")` truncated it, or
      the 44-byte header of the given parameters (the bytes
      `WavEncoder.CreateWavHeader(params)`) once one was written at position 0. */
  datatype FileData = Empty | Header(params: WavEncoder.HeaderParams)

  /** A file descriptor number. */
  type Fd = nat

  /** An entry of the descriptor table: the file it was opened on and whether it is
      still open. */
  datatype FdEntry = FdEntry(dir: string, name: string, open: bool)

  /** The failures of the filesystem calls the engine makes. */
  datatype IoError =
    | BadDescriptor   // EBADF: write or close on a descriptor that is not open
    | NotEmpty        // ENOTEMPTY: rename onto a non-empty directory
    | NoEntry         // ENOENT: rename of a directory that does not exist

  datatype Disk = Disk(
    dirs: map<string, map<string, FileData>>,
    fds: map<Fd, FdEntry>,
    nextFd: Fd)

  /** Every descriptor in the table was handed out before `nextFd`. */
  ghost predicate WellFormed(d: Disk) {
    forall fd :: fd in d.fds ==> fd < d.nextFd
  }

  /** Whether a descriptor is open. */
  predicate IsOpen(d: Disk, fd: Fd) {
    fd in d.fds && d.fds[fd].open
  }

  /** `mkdirSync(dir, { recursive: true })`: creates the directory unless it exists. */
  function MkdirP(d: Disk, dir: string): (r: Disk)
    ensures dir in r.dirs
    ensures r.fds == d.fds && r.nextFd == d.nextFd
    ensures forall x :: x in d.dirs ==> x in r.dirs && r.dirs[x] == d.dirs[x]
    ensures forall x :: x in r.dirs && x != dir ==> x in d.dirs
  {
    if dir in d.dirs then d else d.(dirs := d.dirs[dir := map[]])
  }

  datatype Opened = Opened(disk: Disk, fd: Fd)

  /** `openSync(dir/name, "w")`: creates or truncates the file and hands out a fresh
      open descriptor on it. */
  function OpenForWrite(d: Disk, dir: string, name: string): (r: Opened)
    requires dir in d.dirs
    ensures r.fd == d.nextFd && r.disk.nextFd == d.nextFd + 1
    ensures r.disk.fds == d.fds[r.fd := FdEntry(dir, name, true)]
    ensures r.disk.dirs == d.dirs[dir := d.dirs[dir][name := Empty]]
  {
    Opened(Disk(d.dirs[dir := d.dirs[dir][name := Empty]], d.fds[d.nextFd := FdEntry(dir, name, true)], d.nextFd + 1), d.nextFd)
  }

  /** `writeSync(fd, buf, 0, 44, 0)`: replaces the file's header region. A write to a
      file that has since been removed succeeds without a visible effect. */
  function WriteAtStart(d: Disk, fd: Fd, data: FileData): (r: Result<Disk, IoError>)
    ensures r.Success? <==> IsOpen(d, fd)
    ensures r.Success? ==> r.value.fds == d.fds && r.value.nextFd == d.nextFd
    ensures r.Success? ==> r.value.dirs.Keys == d.dirs.Keys
    ensures r.Success? ==> forall x :: x in d.dirs ==> r.value.dirs[x].Keys == d.dirs[x].Keys
    ensures r.Success? ==> forall x, n :: x in d.dirs && n in d.dirs[x] ==>
      r.value.dirs[x][n] == (if x == d.fds[fd].dir && n == d.fds[fd].name then data else d.dirs[x][n])
  {
    if !IsOpen(d, fd) then Failure(BadDescriptor)
    else
      var e := d.fds[fd];
      if e.dir in d.dirs && e.name in d.dirs[e.dir]
      then Success(d.(dirs := d.dirs[e.dir := d.dirs[e.dir][e.name := data]]))
      else Success(d)
  }

  /** `closeSync(fd)`. */
  function Close(d: Disk, fd: Fd): (r: Result<Disk, IoError>)
    ensures r.Success? <==> IsOpen(d, fd)
    ensures r.Success? ==> r.value == d.(fds := d.fds[fd := d.fds[fd].(open := false)])
  {
    if !IsOpen(d, fd) then Failure(BadDescriptor)
    else Success(d.(fds := d.fds[fd := d.fds[fd].(open := false)]))
  }

  /** `renameSync(from, to)` on directories: the source must exist; renaming onto
      itself changes nothing; an existing empty target is replaced, a non-empty one
      refuses. */
  function RenameDir(d: Disk, from: string, to: string): (r: Result<Disk, IoError>)
    ensures r.Success? <==> from in d.dirs && (from == to || to !in d.dirs || |d.dirs[to]| == 0)
    ensures r.Success? && from != to ==>
      r.value == d.(dirs := (d.dirs - {from})[to := d.dirs[from]])
    ensures r.Success? && from == to ==> r.value == d
  {
    if from !in d.dirs then Failure(NoEntry)
    else if from == to then Success(d)
    else if to in d.dirs && |d.dirs[to]| > 0 then Failure(NotEmpty)
    else Success(d.(dirs := (d.dirs - {from})[to := d.dirs[from]]))
  }

  /** `if (existsSync(dir)) rmSync(dir, { recursive: true })`. */
  function RemoveDir(d: Disk, dir: string): (r: Disk)
    ensures dir !in r.dirs
    ensures r.fds == d.fds && r.nextFd == d.nextFd
    ensures forall x :: x != dir ==> (x in r.dirs <==> x in d.dirs)
    ensures forall x :: x in r.dirs ==> r.dirs[x] == d.dirs[x]
  {
    if dir in d.dirs then d.(dirs := d.dirs - {dir}) else d
  }
}
