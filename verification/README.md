# gostalkd: the write-ahead log and the job scheduler, proved

gostalkd is a work queue server. Clients put jobs into tubes and reserve them; jobs survive
a restart because every change that matters is written to a log of fixed-size files. This
project models the two parts of the server where a mistake would lose a job or hand one out
twice, and proves what they are for:

* the **log**: how space is reserved before it is needed, how records are written, how old
  files are emptied and dropped, what the bytes on disk give back at the next start, and that
  start itself;
* the **scheduler**: the heaps of ready and delayed jobs, the connections waiting on tubes,
  the jobs each connection has reserved, and the loops that match them.

Both are there twice. Once as values: `WalState`, `Startup`, `Schedule`, `Queue` and
`Dispatch` say what each operation does to the whole state, and the theorems are about
these. And once as objects that are changed in place, in the loops of the source: the classes
of `Wal` (with `Server`), `Heap`, `JobList` and `Scheduler`, whose methods are proved to take
the state exactly where the operation on values takes it.

## What is proved

**A run of the log loses nothing.** Written z = 81 for the size of a delete record, maxN for
the largest request and S for the file size less 8: between commands the log is *steady*
(`Commands.Steady`, S ≥ maxN + z): every file's reference count is exact; what is written, free
and reserved adds up to the file size in every open file; every reserve is a multiple of z and
none is negative; and exactly z bytes are reserved for every job in the log. Then every file
strictly between the current one and the tail holds a delete record, and so does the current file
or the one after it, if there is a job (`Commands.SteadyProvides`), so a delete never fails for
want of space. Put, bury, kick, touch and delete, each followed by compaction, keep all this
(`Runs.RunKeeps`): in files of any size if no request for a new file is refused, and in ample
files whatever requests are refused, at whatever point. Ample means S ≥ maxN + w, where w is the
largest multiple of z below maxN. This is the exact bound: in smaller files, if they can
hold a job, there is a run of puts and updates from a new log after which the log is no longer steady
(`Refusals.RefusalsAreCleanExactlyWhenAmple`).

**The next start finds what was confirmed, within its limits.** What start-up makes of the bytes
on disk is what a reader of records makes of the records (`Restart.ReadLogReadsOff`). If every put
confirmed has a body within the size limit of the next start and a tube that exists there, this
is exactly the jobs confirmed and not deleted (`Restart.FirstRunThenRestart`, and on the objects
`Server.Serve`; the jobs with a full record still on disk are enough, `Restart.RestartRecovers`); a
start at every point of a run finds every job if and only if that is so
(`Restart.AlwaysCompleteExactlyWithinLimits`), and a job outside the limits is never found
(`Restart.RestartLoses`). The start itself reads the files into a log that is steady again, where
buried jobs count as buried once more, delayed ones are delayed for the time that is left or are ready,
and all else is as it was logged (`Startup.StartAgainKeeps`), and so on through any number of lives of
the server (`Startup.EveryLife`, `Startup.EveryStartFinds`).

**Compaction gets rid of old files.** If the bytes of the files are at least three times d, the bytes
in use or reserved, and there are two files before the current one, the maintenance after a write moves
jobs out of the oldest file: two fewer than the times d goes into the files, or until only one file before
the current one is left. A file left by its last job is dropped (`Compaction.MaintenanceMoves`).

**A run of the scheduler misplaces nothing.** Between commands every job is in exactly one
place, named by its state, except that a buried job may be on no list; every waiting connection
is registered once on each tube it watches; all counters are the numbers they stand for; every
connection knows its soonest job; and no tube without a pause has both a ready job and a
connection waiting (`Dispatch.ExecuteKeeps`, `Dispatch.RunKeepsPlaces`). While the
server sleeps for the time a tick returns, no delayed job falls due and no pause ends
(`Dispatch.TickPeriodIsSafe`), and it does not wake for nothing (`Effects.TickPeriodIsUsed`).

**Every command does what it is for.** What a command does to jobs, connections and tubes is stated
in their fields, before and after, and nothing else happens to a job but that it may be handed out:
a job put, released, kicked or due stands in its tube with its priority, time to run and delay, or has
gone to a connection that waited; a connection that asks is turned away exactly when one of its jobs is
within a second of its deadline and nothing it watches is ready, and else gets a job or waits
(`Effects.PutDoes`, `Effects.ReserveDoes` and those after them). Whoever is served is served as well as
can be: of the jobs it waited for, none left comes before the one it got, by priority and then by id
(`Effects.MatchingIsBest`). Connections are not served in the order they asked, for the next in line is
passed over (`Effects.NextInLineIsPassedOver`); but each is in the end, if those served ask again at once
and no others come (`Effects.ServedInTheEnd`).

## What turned out false

Each of these is proved of the code as it is, with the condition under which the code does
what it promises.

* `put` compares the size the client gives with the limit and then stores two bytes more
  (net/prot.go:236-251); start-up compares the stored size with the same limit
  (core/file.go:189), and stops reading a file at the first record it refuses. In a file of any
  well-formed records in known tubes, a job that put accepted comes back exactly when it is at
  least two bytes below the limit, no record at or before its own is refused, and every record
  that deletes it stands behind one that is: `Codec.PutIsRecoveredExactlyWhen`.
* Start-up looks a job's tube up without making it (core/file.go:197-199) and dereferences nil if
  there is none: exactly when, among the records before the first it refuses, there is the first
  record of a job in a tube that does not exist (`Codec.PanicsExactlyOnUnknownTube`). Only the
  tube named default exists when the server starts (core/tube.go:29-33).
* A negative name length in a record is reported with a nil error, so reading goes on eight
  bytes further (core/file.go:145-148): a file with a negative word between two of its records
  reads as if it were not there (`Codec.StrayWordIsSkipped`).
* A failed reservation takes its bytes back from the tail, which is not the tail they were put
  into when a file was added in between (core/wal.go:137-151; the comment at
  core/wal.go:275-285 says the tail is not updated on failure). Every run from a new log, whatever
  is refused on the way, leaves every reserve a multiple of z and none negative if and only if
  files are ample, or maxN is below 165, less than any put asks for; and the loop of `balance` runs at most
  once in every log reached, as its comment says, exactly then
  (`Refusals.RefusalsAreCleanExactlyWhenAmple`). For all other sizes a run is given, of jobs with
  the two bytes every body has, and its last put is refused and spoils a reserve:
  `Refusals.SmallestFiles`, `Refusals.LargerFiles`, `Refusals.LargestFiles`.
* A release with a delay reserves a short record and writes none; one without writes a short
  record that nothing was reserved for (net/prot.go:477-493). So after any releases what is
  reserved is z times the jobs, and the releases with a delay, less those without
  (`Releases.ReleasesDrift`), and a delete finds its space exactly as long as z bytes are reserved
  for any job at all (`Releases.DeleteFindsSpaceExactlyWhenReserved`); else, in the last file, the
  log is given up and the job stays in it (`Releases.DeleteGivesUpLog`).
* The position a job remembers is always 0 (core/tube.go:49-51, structure/heap.go:67-78), so the
  commands that take a ready or delayed job by its id out of its heap, delete, reserve-job and
  kick-job (net/prot.go:373-447, 562-573), take out whatever is at the root. Everything stays in
  order if and only if the job named is at the root: `Dispatch.ByIdKeepsExactlyAtRoot`.
* Burying hands the list head and the job to the insertion the wrong way round
  (core/job.go:92), so a job is put on the list of buried jobs exactly when that list is empty
  (`JobList.BuryInsert`, `Dispatch.BuryKeeps`). A job that is buried while it is not is on no list.
  It stays so through every command until it is kicked by its id (`Stranded.StrandedUntilKicked`):
  kicking the jobs of its tube never comes to it, deleting it answers that it is not found
  (`Dispatch.DeleteKeeps`), and reserving it by its id dereferences nil (net/prot.go:388-406,
  966-970, 1010-1020). That last command is the one the runs of the scheduler do not contain.

The warning that the head file holds no job (core/wal.go:101-105) is never given
(`Commands.HeadHoldsAJob`), and the branch for a tube without a waiting connection in
`processQueue` (net/prot.go:1165-1167) is never taken (`Queue.ChoiceMatches`).

## What it rests on

Requests are at most maxN bytes, z is at most maxN, and maxN + z is at most S. Either no request
for a file is refused in the run, the start included, or files are ample. In
`Refusals.RefusalsAreCleanExactlyWhenAmple` file sizes are below 2^63. Bodies are as long as their
records say; tube names have 1 to 200 bytes; a put gets an id no job has had before; commands
arrive parsed, with the whole body there; a connection that waits for a job sends no commands,
but may hang up or leave. The answers of the file system to requests for files are an input, and
so is the clock. Writes to files that exist succeed.

## Files

| file | what it holds |
|---|---|
| Records, Replay, Codec | job records, the log as a persistent map, its bytes and their reader |
| WalState | the operations of the log on values |
| Space | reserving: termination, conservation, congruence, failure |
| Linking, Upkeep, Writing | the invariant of files and jobs and what keeps it |
| Commands, Runs | commands, compaction, runs |
| Compaction | what the maintenance after a write moves |
| Turns, Layouts, Reaching, Filling, Arranging | runs in which files are refused, and how to bring a log's files to a given state |
| Refusals | when a refused reservation does no harm |
| Releases | what releases do to the reserve |
| Restart, Startup | reading back, starting again, any number of lives |
| Steps, Wal, Server | the log as objects changed in place, and the server's commands on them |
| Heap, JobList | the binary heap and the circular job list, in place |
| Schedule, Places, Moves, Queue, Dispatch | the scheduler on values, its invariant, its loops, its commands |
| Effects | what each command does, in the fields of jobs, connections and tubes; the order of service |
| Stranded | jobs that are buried and on no list |
| Scheduler | the scheduler as an object changed in place |

## Model

| member | source | states |
|---|---|---|
| Codec.ReadRec | core/file.go:125-247 | reading one record of arbitrary bytes, negative and oversized lengths included; every step that goes on has used up bytes, so reading a file ends |
| Codec.LittleEndianRoundTrip | core/file.go:375-381 | a number written in k little-endian bytes reads back, if it fits |
| Codec.JobRoundTrip | core/file.go:375-381 | the packed 73-byte job record reads back, signed fields included |
| Codec.ReadZeros | core/file.go:125-166 | unwritten space ends the reading of a file, at the zero job id or for want of bytes, and changes nothing |
| Codec.ReadRecsPrefix | core/file.go:84-122 | after any acceptable records the reader has done exactly what they say and stands at the next byte, whatever follows |
| Codec.ReadFileRoundTrip | core/file.go:84-122 | a file of acceptable records with any amount of unwritten space reads back as exactly those records |
| Codec.FileReadsOff | core/file.go:84-122 | reading the bytes of any file of well-formed records, with any amount of unwritten space, is taking them one by one: an oversized one of a job not seen ends the file, a known size in an unknown tube panics, any other has its effect |
| Codec.RecoversUpToFirstRefused | core/file.go:187-195 | in known tubes reading recovers exactly what the records before the first refused one say |
| Codec.OversizedRecordEndsTheFile | core/file.go:187-195 | an oversized record of a job not seen ends the reading of its file: the job and everything after it are lost |
| Codec.PutIsRecoveredExactlyWhen | net/prot.go:236-251 | in a file of any well-formed records in known tubes, a job that put accepted comes back if and only if its stored size is within the limit, no record before its own is refused, and between its own and any record that deletes it one is |
| Codec.UnknownTubePanics | core/file.go:197-199 | the first record of a job in a tube that does not exist makes start-up panic |
| Codec.PanicsExactlyOnUnknownTube | core/file.go:197-199 | reading any well-formed records panics if and only if, before the first record refused for its size, some job turns up first in a tube that does not exist |
| Codec.StrayWordIsSkipped | core/file.go:84-122 | a file with a word of negative value between two of its records reads as if it were not there |
| Replay.ReplayAppend | core/file.go:451-473 | writing a record to the current file adds that record's effect to what a replay recovers, and nothing else |
| Replay.DropHead | core/wal.go:200-216 | after the first files are dropped a replay recovers exactly the jobs whose latest full record is in a file that is left, each unchanged |
| Replay.DropHeadIsSafeExactlyWhenUnreferenced | core/wal.go:200-216 | dropping head files loses nothing if and only if no live job's latest full record is in one of them |
| WalState.Gc | core/wal.go:200-216 | collection ends; a head file that is referred to stays, and so does every file from a referred-to current one on; no job, record or reserved byte changes |
| WalState.UseNext | core/wal.go:218-227 | going on to the next file changes no job and no reserve in total |
| WalState.MakeRoom | core/wal.go:286-299 | the loop ends although it ignores whether going on worked, because the tail on entry keeps a reserve of n until it is current; on success the current file's reserve is at least n |
| WalState.BalanceRest | core/wal.go:312-336 | the walk ends although it may append a file at every step, by the measure 2 times the files ahead plus 1 while the tail is nearly full |
| Space.MakeRoomKeeps | core/wal.go:286-299 | the total of the reserves is conserved and no count becomes negative, also when a file is refused |
| Space.OnePassIsEnough | core/wal.go:286-299 | the loop runs at most once when the file after the current one holds as much reserve as is asked for, as it does in ample files |
| Space.BetweenHolds | core/wal.go:312-336 | a file strictly between the current one and the tail, its reserve a multiple of z, has more reserved than S - maxN, and in ample files as much as any request |
| Space.BalanceRestKeeps | core/wal.go:312-336 | the walk leaves the first file congruent to n and every later one to 0 modulo z; the tail comes out right because the total is conserved |
| Space.ReserveKeeps | core/wal.go:126-153 | the log's reserve grows by exactly what is returned and stays the sum of the files'; on success the current file holds the n bytes, congruent to n, every later file 0 modulo z, and nothing is negative |
| Space.GrantedReserves | core/wal.go:126-153 | a reservation succeeds if no request for a file is refused |
| Space.ReserveFailsCleanly | core/wal.go:137-151 | in ample files a refused reservation leaves all reserves multiples of z, the sum as it was, and nothing negative, wherever in balance the refusal came |
| Layouts.ThreeRefused | core/wal.go:286-299 | three files with w reserved in each, and a request that is refused the second file it asks for: the bytes taken back come from a file they were not put into |
| Layouts.FiveRefused | core/wal.go:286-299 | the same of a request that fits into the tail, with two files of w behind the current one |
| Reaching.UpdateDone | core/job.go:83-107 | an update reserves z bytes in the current file, or in the tail, or in a file added there, writes them to the current file or the next, and changes nothing else of the rooms of the files, if compaction has nothing to do |
| Filling.RollsFar | core/wal.go:60-93 | updates of one job fill file after file without compaction, and the bytes in use come to exceed what compaction asks for by any amount |
| Arranging.ToFresh | core/wal.go:60-79 | from any steady log with enough in use, updates bring the files to a state given by the number of jobs alone: every file but the last full of delete records |
| Refusals.RefusalsAreCleanExactlyWhenAmple | core/wal.go:137-151 | every run of commands with real bodies from a new log, whatever requests for files are refused in it, leaves the log steady if and only if files are ample or too small for any job; the loop runs at most once in every log reached exactly then |
| Refusals.SmallestFiles | core/wal.go:137-151 | in files with S below 2w a run comes to a put whose refusal leaves a negative reserve |
| Refusals.LargerFiles | core/wal.go:137-151 | in files with S from 2w on, and below w and the largest request that is no multiple of z, a run comes to a put whose refusal leaves a reserve that is no multiple |
| Refusals.LargestFiles | core/wal.go:137-151 | so too when requests go up to a multiple of z and S is one byte below maxN + w |
| Turns.TurnsKeep | core/wal.go:126-153 | in ample files every run leaves the log steady, whatever the file system answers command by command |
| Upkeep.GcKeeps | core/wal.go:200-216 | collection keeps reference counts and links exact and loses no recoverable job; the head is referred to afterwards; current and later files are untouched |
| Upkeep.NewFileKeepsBase | core/wal.go:239-256 | a new file keeps the invariant of files and jobs and what is recoverable |
| Upkeep.UseNextKeepsBase | core/wal.go:218-227 | a file is closed only with nothing reserved in it, and cutting it keeps every written byte |
| Upkeep.ReserveKeepsBase | core/wal.go:126-153 | a reservation, granted or refused, keeps written plus free plus reserved equal to the file size in every open file, counts and links exact, and no new job recoverable |
| Writing.RmJobKeeps | core/file.go:64-81 | unlinking a job, with the collection it may set off, keeps everything recoverable of the other jobs and every later file |
| Writing.UpdateKeeps | core/file.go:451-464 | after a short record a restart recovers the job as it is now |
| Writing.DeleteKeeps | core/file.go:451-464 | after a delete record and the unlinking a restart recovers every other job as before and this one not at all |
| Writing.FullKeeps | core/file.go:466-473 | after a full record of a job in no file, new or just unlinked, a restart recovers it from the current file as it is now |
| Writing.TouchKeeps | net/prot.go:1035-1042 | a change of a job in memory alone changes nothing a restart recovers |
| Commands.ReserveReady | core/wal.go:339-349 | after a reservation between commands exactly z bytes per job plus what was granted are reserved; so it is after a refused one in ample files |
| Commands.FullWrites | net/serv.go:398-404 | a new or moved job is written with just what was reserved for it, and the ledger of z per job is right again |
| Commands.ShortWrites | core/job.go:83-107 | an update is written with the z reserved for it, and the ledger is right again |
| Commands.NextFileHoldsOne | core/wal.go:60-79 | when nothing is reserved in the current file and anything at all is reserved, the next file exists and holds a delete record |
| Commands.BetweenHoldsOne | core/wal.go:60-79 | every file strictly between the current one and the tail holds a delete record |
| Commands.SteadyProvides | core/wal.go:126-153 | between commands z bytes are reserved for every job, in multiples of z, in every file between current and tail, and in the current file or the next |
| Commands.DeleteFits | core/wal.go:60-79 | a delete record fits without a reservation of its own, after going on to the next file at most once |
| Commands.DeleteWrites | net/prot.go:444-446 | deleting never fails for want of space and gives back exactly the job's share of the reserve |
| Commands.HeadHoldsAJob | core/wal.go:95-105 | a head file that is not current lists a job, and one that can be moved |
| Commands.MoveOneKeeps | core/wal.go:95-116 | compaction's step keeps the log steady and every job as it was in memory, whether or not it gets its space, if files are ample or no request is refused |
| Commands.CompactKeeps | core/wal.go:89-93 | compaction, however often it steps, loses no job and changes none |
| Compaction.MoveOneMoves | core/wal.go:95-116 | with two files before the current one and no request for a file refused, a step moves the oldest file's first job into a later file, and drops the oldest file if that was its only job |
| Compaction.MaintenanceMoves | core/wal.go:89-116 | after a write with nothing refused: with fewer than two files before the current one, or files of less than three times the bytes d in use or reserved, nothing is moved; else jobs are moved, first the oldest file's first job, and a head left empty is dropped; the number of moves plus 2 is the number of times d goes into the files' bytes, unless fewer than two files are left before the current one |
| Runs.CommandExecutes | net/serv.go:374-421 | one put, update, touch or delete leaves the log steady and holding exactly what the client was told, with the record the job was last given in memory |
| Runs.RunKeeps | core/wal.go:60-93 | after any commands without a refused request for a file, or with any refusals in ample files, the log is steady, provides for every delete, and holds exactly what the clients were told |
| Runs.NewLogIsSteady | core/wal.go:31-39 | the log made in an empty directory is steady and empty |
| Releases.ReleasesDrift | net/prot.go:477-493 | after any releases what is reserved is z for every job, and z more for every release with a delay, and z less for every one without, as long as z bytes are left for those |
| Releases.DeleteFindsSpaceExactlyWhenReserved | net/prot.go:439-452 | after releases a delete is written and leaves the log in order if and only if at least z bytes are reserved |
| Releases.DeleteGivesUpLog | core/wal.go:60-79 | when nothing is reserved and no file is ahead, a delete gives the log up and the job stays in it |
| Restart.ReadLogReadsOff | core/wal.go:352-370 | reading the bytes of all files, oldest first, is taking their records one by one, refusals and panics included |
| Restart.RestartRecovers | core/wal.go:352-370 | reading a steady log's files as they are on disk gives, if all jobs with a full record on disk are within the limits, for each logged job and no other its tube, body, last written record, file and bytes used, which add up to the log's count |
| Restart.ReadsUpToRefused | core/wal.go:352-370 | in known tubes start-up recovers exactly what a replay gives of each file's records before the first it refuses, over all files |
| Restart.CompleteExactlyWhen | core/wal.go:352-370 | a start finds every job of a steady log in known tubes if and only if what stands behind refused records makes no difference to a replay |
| Restart.OutsideIsNotRecovered | core/file.go:187-199 | a job whose body is too long or whose tube does not exist is not recovered, whatever the other records are and wherever they stand |
| Restart.RestartLoses | core/file.go:187-199 | a job in a steady log that is outside the limits of the next start is not found by it |
| Restart.RunThenRestart | core/wal.go:352-370 | from a steady log, after any commands whose confirmed puts are within the limits of the next start, a restart recovers exactly the confirmed jobs, each with a record it had since it was last written for a client |
| Restart.FirstRunThenRestart | core/wal.go:31-39 | the same from an empty directory |
| Restart.AlwaysCompleteExactlyWithinLimits | core/wal.go:352-370 | a start at every point of a run would find every job in the log if and only if every put confirmed in it is within the limits of that start |
| Startup.LoadRecKeeps | core/file.go:125-247 | reading a record does to the jobs what replaying it says and keeps links, reference counts and byte counts exact, moves and deletes with their collections included |
| Startup.LoadFileKeeps | core/file.go:84-122 | reading a file leaves it closed, referred to by exactly the jobs whose latest full record it holds, or dropped with the head |
| Startup.LoadKeeps | core/wal.go:352-370 | reading all files rebuilds exactly the replayed jobs, homes and byte counts; head files not needed are gone |
| Startup.ReserveOne | net/prot.go:1386-1396 | reserving for one job read adds exactly one delete record to the reserve, or nothing is granted |
| Startup.ReplayedComesBack | net/prot.go:1398-1412 | field by field: a buried job is buried once more in its count, a delayed one whose deadline is ahead is delayed for what is left of it, any other is ready, and nothing else of its record changes |
| Startup.ReplayedIsSteady | net/prot.go:1398-1412 | burying a buried job read once more and delaying a delayed one anew, or making it ready, keeps the log steady and changes nothing a restart recovers |
| Startup.RestartedIsSteady | net/serv.go:96-110 | when start-up gets the space it asks for, the log is steady: z bytes reserved for every job, exactly the replayed jobs, and each in memory in the state, field by field, that its logged record and the clock make |
| Startup.StartAgainKeeps | net/serv.go:96-110 | a restart between two commands, with any new file size that holds a request and a delete record, keeps every job the clients know and no other; field by field each is buried once more, delayed for the time left, or ready, and else as it was logged |
| Startup.EveryLife | net/serv.go:96-110 | through any number of runs and restarts the log is steady and provides for every delete whenever the server is up, and holds exactly the jobs put and not deleted in any life |
| Startup.EveryStartFinds | core/wal.go:352-370 | the jobs a start finds in the bytes a life leaves on disk are exactly those the next life begins with |
| Wal.Wal.constructor | core/wal.go:161-198 | the log of a server that finds no files, as objects |
| Wal.Wal.WalInit | core/wal.go:31-39 | makes the first file and makes it current |
| Wal.Wal.FileAdd | core/file.go:503-512 | appends a file to the linked list: head, tail and the links stay those of the sequence of files |
| Wal.Wal.MakeNextFile | core/wal.go:239-256 | in place what WalState.MakeNextFile says, for either answer of the file system |
| Wal.Wal.WalGc | core/wal.go:200-216 | the loop over the linked list drops exactly the head files WalState.Gc drops |
| Wal.Wal.FileDecRef | core/file.go:427-435 | one reference less, and collection when none is left |
| Wal.Wal.FileWClose | core/file.go:475-492 | closes a file once, cutting it to what is written, and gives back its reference |
| Wal.Wal.UseNext | core/wal.go:218-227 | in place what WalState.UseNext says; the next file is current unless it was collected |
| Wal.Wal.MoveResv | core/wal.go:258-263 | in place what WalState.MoveResv says, also when both files are one |
| Wal.Wal.NeedFree | core/wal.go:265-273 | in place what WalState.NeedFree says |
| Wal.Wal.MakeRoom | core/wal.go:286-299 | the while loop ends and does what WalState.MakeRoom says |
| Wal.Wal.BalanceRest | core/wal.go:312-336 | the recursion over next pointers ends and does what WalState.BalanceRest says |
| Wal.Wal.Balance | core/wal.go:286-300 | in place what WalState.Balance says |
| Wal.Wal.Reserve | core/wal.go:126-153 | in place what WalState.Reserve says, with the same result |
| Wal.Wal.FileAddJob | core/file.go:50-61 | links a job into the current file |
| Wal.Wal.FileRmJob | core/file.go:64-81 | unlinks a job from its file, or does nothing for a file that is not its own or nil |
| Wal.Wal.FileWrite | core/file.go:438-449 | appends the bytes of one value and moves them from the reserves to the bytes in use |
| Wal.Wal.FileWrJobShort | core/file.go:451-464 | the bytes of a short record, and the unlinking of a deleted job |
| Wal.Wal.FileWrJobFull | core/file.go:466-473 | the bytes of a full record in four writes, and the link to the file |
| Wal.Wal.WalWrite | core/wal.go:60-79 | in place what WalState.WalWrite says: which file, which kind of record, and giving the log up |
| Wal.Wal.WalResvPut | core/wal.go:339-349 | reserves the job's full record and its delete record |
| Wal.Wal.WalResvUpdate | core/wal.go:42-46 | reserves one short record |
| Wal.Wal.WalResvMigrate | core/wal.go:118-124 | reserves the job's full record |
| Server.MoveOne | core/wal.go:95-116 | on the objects, what Commands.MoveOne says; the log stays in order |
| Server.WalCompact | core/wal.go:89-93 | the loop does what Commands.WalMain says; the log stays in order |
| Server.Put | net/serv.go:374-421 | reserve, write, compact: what Runs.Execute says of a put, with the same answer |
| Server.Update | core/job.go:83-107 | reserve, change, write, compact: what Runs.Execute says of a bury or a kick |
| Server.Delete | net/prot.go:439-452 | mark, write, compact, free: what Runs.Execute says of a delete |
| Server.Execute | net/prot.go:140-206 | every command leaves the objects in order and holding what the client is told |
| Server.DiskHoldsTheJobs | core/wal.go:352-370 | between commands the bytes in the file objects, padded to their sizes, read back as exactly the jobs the clients know, if those with a full record on disk are within the limits |
| Server.Start | net/serv.go:96-110 | a first start comes up exactly when its file is granted, and then in order |
| Server.Serve | net/serv.go:80-93 | after any commands on the objects the bytes on disk read back as exactly the confirmed jobs, if those are within the limits of the next start |
| Heap.UpOrders | structure/heap.go:80-83 | sifting up an entry too small for its place makes a heap again |
| Heap.DownOrders | structure/heap.go:104-110 | sifting down a misplaced entry that moves makes a heap again |
| Heap.PushKeeps | structure/heap.go:80-83 | pushing keeps heap order and adds just the entry pushed |
| Heap.RemoveKeeps | structure/heap.go:104-110 | removing at any index keeps heap order and takes out just that entry |
| Heap.RootIsLeast | structure/heap.go:93-102 | the root's key is below that of any entry, or equal to it with an id that is no greater |
| Heap.Heap.SiftUp | structure/heap.go:128-132 | the loop of swaps keeps every item's index and does what Heap.Up says |
| Heap.Heap.SiftDown | structure/heap.go:128-132 | the loop of swaps keeps every item's index and does what Heap.Down says; says if the item moved |
| Heap.Heap.Push | structure/heap.go:80-83 | heap order, indices and items after a push |
| Heap.Heap.Pop | structure/heap.go:85-91 | takes out the root item; heap order, indices and the other items stay |
| Heap.Heap.Remove | structure/heap.go:104-110 | takes out the very item at the index; heap order, indices and the other items stay |
| JobList.JobListEmpty | core/job.go:159-162 | true exactly for a node that is alone in its ring |
| JobList.JobListInsert | core/job.go:178-187 | appends a lone job to the ring of a list; a job in that list or in another stays where it is |
| JobList.JobListRemove | core/job.go:164-176 | takes a job out of its ring, leaving both rings intact; nil for one that is in none |
| JobList.BuryInsert | core/job.go:92-93 | a job is put on the list of buried jobs if and only if that list was empty |
| Moves.RemoveReadySound | net/prot.go:1154-1161 | taking the root of a ready heap in hand keeps every other job placed and every counter right |
| Moves.RemoveDelayedSound | net/prot.go:86-96 | the same for the root of a heap of delayed jobs |
| Moves.PlaceSound | net/prot.go:1178-1196 | a job in hand enqueued with or without delay is in exactly that heap, and counted |
| Moves.GiveSound | net/conn.go:229-239 | a job in hand given to a connection is on its list and nowhere else, and counted |
| Moves.TakeBackSound | net/conn.go:97-106 | a reserved job taken back is on no list, and no longer counted |
| Moves.WaitsSound | net/prot.go:986-995 | a connection that starts to wait is registered once on each tube it watches, and counted |
| Moves.StopWaitingSound | net/conn.go:215-227 | a connection that stops waiting is registered nowhere |
| Moves.CalledSound | structure/ms.go:105-117 | the connection whose turn it is waited on this tube; taken off here and then everywhere, counts right, although the second removal finds it gone from this tube |
| Moves.SoonestFinds | net/conn.go:146-154 | the scan finds a job of least deadline, and none only in an empty list |
| Moves.RescheduleSoonest | net/conn.go:156-203 | after a reply what the connection remembers as its soonest job is right |
| Queue.BestIsLeast | core/tube.go:96-118 | the job chosen has the least priority number, and of those the least id, among all ready jobs of all tubes not paused with a connection waiting; none exactly when there is none |
| Queue.ChoiceMatches | core/tube.go:96-118 | the job chosen is at the root of its heap and its tube has a connection waiting |
| Queue.AssignSound | net/prot.go:1156-1173 | handing out a job changes that job, its heap and one waiting connection, and keeps everything in its place |
| Queue.ProcessQueueDrains | net/prot.go:1154-1175 | the loop ends with no tube not paused having both a ready job and a waiter; each waiter got at most one job, each job went to at most one, and only to one waiting on its tube |
| Queue.SoonestDelayedIsLeast | core/tube.go:76-94 | no delayed job of any tube is due before the one found |
| Queue.PromoteDueEnds | net/prot.go:86-96 | the loop ends with no delayed job due; only due jobs became ready or were handed out, and none is lost |
| Queue.UnpauseEnds | net/prot.go:98-108 | after the walk no pause is over and nothing can be handed out, however the matching in between changed the tubes |
| Dispatch.TickKeeps | net/prot.go:73-125 | after a tick no delayed job is due, no pause is over, nothing can be handed out, and nothing is lost |
| Dispatch.TickPeriodIsSafe | net/prot.go:73-125 | the time a tick returns is positive and at most an hour; before it is over no delayed job falls due and no pause ends |
| Dispatch.DisconnectKeeps | net/conn.go:247-294 | a leaving connection is registered nowhere, its reserved jobs are back in their tubes or with others, and none is lost |
| Dispatch.ReserveKeeps | net/prot.go:356-370 | asking for a job leaves everything in order, served or waiting or refused for a deadline near |
| Dispatch.ReleaseKeeps | net/prot.go:477-503 | releasing keeps everything in order; a job of another connection is not touched |
| Dispatch.BuryKeeps | net/prot.go:522-535 | burying keeps everything in order; the job is on the list of its tube if and only if that list was empty |
| Dispatch.DeleteKeeps | net/prot.go:418-447 | deleting keeps everything in order; a job is left if it is reserved by another or buried and on no list, and only then |
| Dispatch.KickJobsEnds | net/prot.go:828-857 | kicking up to n jobs of a tube loses none; fewer than n only when the list of buried jobs, or else the heap of delayed ones, is empty afterwards |
| Dispatch.HangUpKeeps | net/serv.go:331-338 | a waiting connection that hangs up is registered nowhere and keeps its reserved jobs; everything stays in order |
| Dispatch.ExecuteKeeps | net/prot.go:140-206 | every command keeps one place per job, registrations, counters and soonest jobs right, and leaves nothing to be handed out |
| Dispatch.RunInOrder | net/prot.go:140-206 | so does every run |
| Dispatch.OnePlace | core/job.go:193-215 | a job is in exactly the heap or list its state and connection name, and in no other; only a buried one may be in none |
| Dispatch.RunKeepsPlaces | net/serv.go:80-93 | after any run from an empty server each job is in its one place and each connection's soonest job is none exactly when it has none, else one of least deadline |
| Dispatch.ByIdKeepsExactlyAtRoot | net/prot.go:1044-1067 | deleting or reserving a ready or delayed job by its id, or kicking a delayed one, keeps everything in order if and only if it is at the root of its heap; matching afterwards mends nothing |
| Effects.NextIsFirst | core/tube.go:96-118 | the next job handed out is, of all ready jobs some connection waits for in tubes not on pause, the one of least priority number and then of least id; there is none only if there are no such jobs |
| Effects.MatchingServes | net/prot.go:1154-1175 | matching leaves no ready job that a connection waits for in a tube not on pause; a job handed out gets the connection and its deadline, every other is unchanged |
| Effects.MatchingIsBest | net/prot.go:1154-1175 | after the whole loop no connection has got a job while one before it, by priority number and then id, that it waited for in a tube not on pause is left |
| Effects.ServesAtTheMark | net/prot.go:1164-1173 | the job goes to the connection at its tube's mark, which is then off the list, and the mark is one further |
| Effects.NextInLineIsPassedOver | structure/ms.go:105-117 | of three or more waiting connections the one after the one just served is passed over and the next but one is served |
| Effects.ServedInTheEnd | structure/ms.go:105-117 | each of n waiting connections is served after fewer than n times n turns, if those served ask again at once and no others come |
| Effects.PutDoes | net/serv.go:404-415 | the job put is in the tube named with its priority and time to run, delayed for its delay, or ready, or reserved by a connection that waited on the tube; all others are as they were or handed out |
| Effects.ReserveDoes | net/prot.go:356-370 | a connection neither waits nor gets a job exactly when one of its jobs has a second or less to go and no tube it watches has a ready job; else it waits on all of them and none that is not on pause has a ready job, or it has got one and none left comes before it |
| Effects.ReleaseDoes | net/prot.go:475-503 | a job the connection has gets the new priority and is delayed, ready or handed out; one it does not have is left alone |
| Effects.BuryDoes | net/prot.go:522-535 | a job the connection has is buried with the new priority and reserved by nobody; no other job changes |
| Effects.TouchDoes | net/prot.go:1035-1042 | a job the connection has gets its whole time to run from now; no other job changes |
| Effects.ReserveJobDoes | net/prot.go:373-406 | a job nobody has is reserved by its id with its whole time to run; a reserved one is left alone, and so are all others |
| Effects.DeleteDoes | net/prot.go:418-447 | the job is gone if the connection has it, or nobody has and it is where it is looked for; else it is unchanged, and so are all others |
| Effects.KickJobDoes | net/prot.go:562-573 | a buried or delayed job is ready, or handed out, with its priority and time to run; any other is left alone |
| Effects.KickDoes | net/prot.go:828-857 | at most n jobs of the tube, buried ones if any is on its list, else delayed ones, those due first, are ready or handed out; fewer only if none are left; all others are as they were or handed out |
| Effects.PauseDoes | net/prot.go:762-796 | the tube hands out nothing for the time asked, or for a nanosecond when none is asked; no job and no other tube changes |
| Effects.WatchDoes | net/prot.go:701-719 | the tube is watched as well; nothing else changes |
| Effects.IgnoreDoes | net/prot.go:722-754 | the tube is watched no more, unless it would be the last; nothing else changes |
| Effects.HangUpDoes | net/serv.go:331-338 | the connection waits no longer and keeps its jobs; no job and no other connection changes |
| Effects.DisconnectDoes | net/conn.go:247-294 | exactly the connection's jobs are ready again or handed to others; all others are as they were or handed out, and the connection is gone |
| Effects.TickDoes | net/prot.go:73-125 | exactly the delayed jobs whose deadline has come are ready or handed out, all others are as they were or handed out; exactly the pauses that are over end |
| Effects.TickPeriodIsUsed | net/prot.go:73-125 | when the time a tick returns is over, a delayed job falls due, or a tube's pause was to end, or an hour has gone |
| Stranded.BuryStrands | core/job.go:92-93 | a job buried by its connection is on no list afterwards if and only if its tube's list of buried jobs was not empty |
| Stranded.StrandedUntilKicked | net/prot.go:1010-1020 | a job that is buried and on no list stays so, unchanged, through a command if and only if the command does not kick it by its id |
| Stranded.StrandedThroughRuns | net/prot.go:140-206 | and through any run in which it is not kicked by its id |
| Scheduler.Server.NextAwaitedJob | core/tube.go:96-118 | the walk over the tubes finds the choice and clears the pauses that are over |
| Scheduler.Server.SoonestDelayedJob | core/tube.go:76-94 | the walk over the tubes finds the delayed job due first |
| Scheduler.Server.RemoveReadyJob | net/prot.go:1056-1067 | takes out the root of the job's ready heap and uncounts the job |
| Scheduler.Server.RemoveBuriedJob | net/prot.go:1010-1020 | takes the job off its tube's list of buried jobs; says whether it was on it |
| Scheduler.Server.InsertBuriedJob | core/job.go:92-93 | puts the job on its tube's list of buried jobs if that is empty |
| Scheduler.Server.PlaceJob | net/prot.go:1178-1196 | puts the job into the heap the delay calls for and counts it |
| Scheduler.Server.EnqueueWaitingConn | net/prot.go:986-995 | the loop over the watched tubes registers the connection on each |
| Scheduler.Server.RemoveWaitingConn | net/conn.go:215-227 | the loop over the watched tubes takes the connection off each |
| Scheduler.Server.TakeWaitingConn | structure/ms.go:105-117 | takes the connection at the mark and moves the mark on |
| Scheduler.Server.ScanSoonest | net/conn.go:146-154 | the loop over the list finds what Schedule.Soonest says |
| Scheduler.Server.ConnSched | net/conn.go:193-203 | works the soonest job out only when it is not known |
| Scheduler.Server.ReserveJob | net/conn.go:229-239 | in place what Schedule.Give says |
| Scheduler.Server.RemoveReservedJob | net/conn.go:97-106 | in place what Schedule.TakeBack says |
| Scheduler.Server.HandOut | net/prot.go:1157-1173 | one turn of the loop, in the order of the source, is Schedule.Assign |
| Scheduler.Server.ProcessQueue | net/prot.go:1154-1175 | the loop ends and does what Queue.ProcessQueue says |
| Scheduler.Server.EnqueueJob | net/prot.go:1178-1210 | place and match, in place |
| Scheduler.Server.PromoteDelayed | net/prot.go:86-96 | the loop ends, does what Queue.PromoteDue says and returns the time until the first delayed job is due |
| Scheduler.Server.EndPauses | net/prot.go:98-108 | the walk does what Queue.UnpauseFrom says and returns the time until the first pause ends |
| Scheduler.Server.ProtTick | net/prot.go:73-125 | in place what Dispatch.DoTick says, with the time it returns |
| Scheduler.Server.ConnDeadLineSoon | net/conn.go:72-82 | the soonest job's deadline is within the safety margin |
| Scheduler.Server.ConnReady | net/conn.go:85-95 | some watched tube has a ready job |
| Scheduler.Server.DispatchPut | net/serv.go:404-415 | in place what Dispatch.DoPut says |
| Scheduler.Server.DispatchReserve | net/prot.go:356-370 | in place what Dispatch.DoReserve says |
| Scheduler.Server.DispatchReserveJob | net/prot.go:373-406 | in place what Dispatch.DoReserveJob says |
| Scheduler.Server.DispatchDelete | net/prot.go:418-447 | in place what Dispatch.DoDelete says |
| Scheduler.Server.DispatchRelease | net/prot.go:475-503 | in place what Dispatch.DoRelease says |
| Scheduler.Server.DispatchBury | net/prot.go:522-535 | in place what Dispatch.DoBury says |
| Scheduler.Server.DispatchKickJob | net/prot.go:562-573 | in place what Dispatch.DoKickJob says |
| Scheduler.Server.KickBuriedJobs | net/prot.go:838-844 | the loop ends and does what Dispatch.KickBuried says |
| Scheduler.Server.KickDelayedJobs | net/prot.go:847-857 | the loop ends and does what Dispatch.KickDelayed says |
| Scheduler.Server.DispatchKick | net/prot.go:539-549 | in place what Dispatch.DoKick says, with the number answered |
| Scheduler.Server.TouchJob | net/prot.go:1035-1042 | in place what Dispatch.DoTouch says |
| Scheduler.Server.EnqueueReservedJobs | net/conn.go:180-191 | the loop over a leaving connection's jobs ends and does what Dispatch.EnqueueReserved says |
| Scheduler.Server.ConnClose | net/conn.go:278-281 | in place what Dispatch.DoDisconnect says |
| Scheduler.Server.HangUp | net/serv.go:331-338 | in place what a connection does that hangs up while it waits |
| Scheduler.Server.Dispatch | net/prot.go:140-206 | every command takes the object where Dispatch.Execute says, and leaves everything in order |

## Left out

- Codec.ReadRec: its contract promises only that reading goes on past bytes used up; what is read of well-formed records is Codec.FileReadsOff. A body size so large that allocating it panics is read as a file that is too short.
- Runs.RunKeeps: commands are not cut short; a crash inside compaction, after the job is unlinked and before it is written again, is not modelled, nor are failing writes.
- Runs.CommandExecutes: release is not among the commands of the log, because the reserve drifts by z each time, as Releases.ReleasesDrift shows. A bury is an update: that the source changes the priority in memory before it reserves (net/prot.go:530), and so also when it is refused, is a Touch before an Update.
- Restart.RunThenRestart: the puts confirmed are within the limits of the next start; what a start makes of other jobs is in Restart.OutsideIsNotRecovered and Codec.FileReadsOff.
- Startup.RestartedIsSteady: start-up is modelled on values, not on objects; the clock gives two readings for each job replayed.
- Startup.EveryLife: a life follows another only when start-up gets the files and the space it asks for; else the source panics. The order of the jobs read and the number a file gets when one is missing in between are not modelled.
- Startup.LoadRecKeeps: start-up is modelled on values, not on objects; the records of a file are taken as Codec reads them from its bytes.
- Wal.Wal.WalInit: only the start that finds no files is modelled on objects; the branch that reads files is on values, in Startup.
- Wal.Wal.FileWrite: a write that fails is left out, so Wal.Wal.FileWrJobShort, Wal.Wal.FileWrJobFull and Wal.Wal.WalWrite always write.
- Wal.Wal.FileWrJobShort: see Wal.Wal.FileWrite.
- Wal.Wal.FileWrJobFull: see Wal.Wal.FileWrite.
- Wal.Wal.WalWrite: giving the log up after a failing write is left out; giving it up for want of a file is not.
- Server.Execute: release, and the commands that write nothing to the log, are left out; the reserve after releases is Releases.ReleasesDrift.
- Dispatch.ExecuteKeeps: assumes that log writes and reservations succeed; then no command stops half-way. Reserving by its id a buried job that is on no list is left out, because the source dereferences nil there.
- Dispatch.RunInOrder: as Dispatch.ExecuteKeeps; a ready or delayed job is named by its id only at the root of its heap, the exact condition by Dispatch.ByIdKeepsExactlyAtRoot.
- Dispatch.RunKeepsPlaces: as Dispatch.RunInOrder.
- Dispatch.ReleaseKeeps: the reservation and the log write of a release are left out here; what they do to the reserve is Releases.ReleasesDrift.
- Scheduler.Server.DispatchRelease: as Dispatch.ReleaseKeeps.
- Scheduler.Server.EnqueueJob: the log write between placing and matching is left out; it succeeds.
- Scheduler.Server.ConnSched: the time at which a connection ticks and the heap of connections ordered by it are left out.
- Scheduler.Server.DispatchReserveJob: only for a job at the root of its heap, or on the list of buried jobs; off the root see Dispatch.ByIdKeepsExactlyAtRoot, off the list the source dereferences nil.
- Scheduler.Server.DispatchDelete: only for a ready or delayed job at the root of its heap; off the root see Dispatch.ByIdKeepsExactlyAtRoot.
- Scheduler.Server.DispatchKickJob: as Scheduler.Server.DispatchDelete.
- Scheduler.Server.Dispatch: as Dispatch.ExecuteKeeps.
- Scheduler.Server.InsertBuriedJob: the list of buried jobs is a sequence here; the ring of nodes and the swapped insertion are in JobList.
- Effects.PutDoes: as Dispatch.ExecuteKeeps; the size and the state of the connection are checked before.
- Effects.ReserveDoes: a reserve with a time limit waits as one without; that the limit runs out is left out with connection timeouts.
- Effects.ReleaseDoes: as Dispatch.ReleaseKeeps.
- Effects.BuryDoes: as Dispatch.ExecuteKeeps.
- Effects.KickDoes: as Dispatch.ExecuteKeeps.
- Effects.ReserveJobDoes: as Scheduler.Server.DispatchReserveJob.
- Effects.DeleteDoes: as Scheduler.Server.DispatchDelete.
- Effects.KickJobDoes: as Scheduler.Server.DispatchDelete.
- Effects.ServedInTheEnd: with more connections coming than are served the mark may never get round; that is not part of the statement.
- Compaction.MaintenanceMoves: when a request for a file is refused nothing is said of what is moved; what stays is Commands.CompactKeeps.
- Releases.ReleasesDrift: the maintenance after the write of a release is left out, and so are other commands between releases.
- Refusals.RefusalsAreCleanExactlyWhenAmple: in files that are not ample, where it gives runs that go wrong, only those count in which a command that is refused a file writes nothing; in ample files all do.
- The log and the scheduler are proved apart: that a job the scheduler holds ready, delayed or buried is the one the next start finds in that state is not stated. One reading of the clock serves a command where the source takes several.
- Tubes, connections and the scheduler's jobs are values in the fields of one object, and a job of the log is a value in the dictionary; aliasing between them is not captured. Log files, heap items and list nodes are objects.
- j.WalResv, the ledger each job keeps for itself, which compaction and start-up do not credit (core/wal.go:107-115).
- Counters of buried and of all jobs, of deletes, kicks and pauses, of producers and workers, tube use and watch counts: plain counts, or counted twice across start-up.
- The heap of connections by time, connection timeouts, and the third loop of protTick, which never runs (net/prot.go:111).
- The reader of the version 5 format, unknown versions beyond skipping the file, locking and scanning the directory, fsync, logging.
- Sockets, polling, replies and their text, parsing of commands, peeking, listing and statistics.
