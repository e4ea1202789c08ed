# Verification of the mcli plugin's section filters, packet buffer and resource pools

This project models three parts of the VDR plugin `mcli` (DVB reception through NetCeivers) in Dafny
and proves what they promise.

- **The section demultiplexer** (`filter.c`). Transport packets of 188 bytes are cut into chunks,
  every chunk goes to the section filters of its PID, and a filter puts whole sections together and
  writes them to its reader. The sending side is the packetisation of sections in section 2.4.4 of
  ISO/IEC 13818-1 (packet and adaptation field: section 2.4.3). It is written down as a relation
  `Packetised`, and the main results say that the receiving loops invert it.
- **The packet buffer** (`packetbuffer.c`). A ring of descriptors over a byte array, with one producer
  and one consumer whose steps interleave. The main results say that it refines a queue of byte
  strings.
- **The pools** (`mcli.c`, `device.c`). Tuners and CAMs that come and go, and devices that hold
  references to them. The main results are invariants over all devices and both pools, over every run
  of tuning, enabling, disabling, stealing, hot-plug and reconfiguration.

Each part has the same three layers:

1. step functions on values, with the branches of the source (`Sections`, `Chunking`, `Demultiplexer`,
   `Registry`; `PacketRing`; `Pools`, `PoolSteps`, `Sweep`);
2. results about these functions and about runs of them (all other modules of the part);
3. classes with mutable fields and arrays, searched and changed by loops as in the source, each method
   proved to perform the step function (`FilterObjects`, `PacketBuffers`, `Plugins`).

`dafny verify dfyconfig.toml` checks the whole project.

## The main results

**Demultiplexer.** Packets are written in bytes, with any adaptation field (`Packetiser.Wire`), and what a
filter asks for is said bit by bit (`Sections.Asks`). `Reassembly.SectionsArrive`: whatever the demultiplexer has seen before, and whatever
packets of other PIDs come in between, every open filter writes out exactly the sections it asks for,
byte for byte and in order; it is deleted if and only if the reader fails one of those writes, and what it
has then handed to `write()` are exactly those sections up to the failed one. `Reassembly.Resynchronises`:
after any loss or garbage, a filter writes at most one junk section and then exactly the sections that begin
in a well-formed run. `Isolation.FiltersAreIndependent` and `Isolation.PidsDoNotInterfere` reduce the whole
demultiplexer to its filters, each run alone on the packets of its PID. `Registry.RegistryHolds` and
`Registry.CloseReturnsLastPid` keep the list of PIDs in step with the open filters, and
`StayingOpen.SectionsArriveThroughout` has the round trip for a filter around which others are opened, closed
and collected.

**Packet buffer.** The comparison with `dataSize` in `packetbuffer.c:90` is not enough: in the wrapped
branch the limit would have to be the offset of the oldest packet. The model keeps the code as it is.
`RingSafety.PlacementSafeIff` gives the exact condition: a granted region overlaps no queued packet if and
only if `GapOverrun` does not hold, which depends only on the indices, the two descriptors that FindSpace
looks at and the size. `RingOverrun.LaggingReached` and `RingOverrun.LaggingReaderOverwritten` exhibit a
reader that is overwritten in the very buffer that the plugin builds, of 10000 packets of 188 bytes: after
9999 packets put, two read and two more put, the next packet is put over the one that the reader gets next.
`RingRun.RunRefines` is the refinement of the queue over every run that meets the condition;
`RingRepair.RepairedIff` and `RingRepair.RepairedRunRefines` show that one changed comparison, `<=` with the
reader's offset in place of `<` with `dataSize`, refuses exactly the bad placements and makes the refinement
unconditional; `<` with the reader's offset would refuse exact fits as well. `RingRun.RefusedInRun` says
exactly when PutStart is refused, which it is only when the queue leaves less than twice the size. Every descriptor stays inside the data
area in every run, with the code as it is (`RingRun.RunRing`). `RingHeld.HeldStays` and
`RingRepair.RepairedHeldStays` say that nothing the producer does moves or changes what the consumer holds.
`Relaying.SectionsRelayed` puts both parts together: packets that PutTS puts into the buffer and the loop of
Action takes out, the two threads interleaving in any way, bring every filter its sections when no gap is
overrun and no PutStart is refused; `Relaying.EveryPacketRelayed` says that an attentive reader suffices.

**Pools.** `PoolRuns.RunKeeps`: over every run a tuner slot is in use if and only if exactly one device
refers to it, a CAM is counted as used at most as often as devices refer to it, a device is enabled for CA
exactly while it holds a CAM, and live entries are distinct. Over runs that remove no tuner in use, and
with constant limits, types agree and type limits hold although the source tests them with `==`. Over runs
that enter no CAM into a slot which still has users, as all runs are that remove no CAM in use, every use
count is exactly the number of holders, also when a module is pulled; and over runs in which no CAM shrinks
below its users no CAM has more users than it takes. `Removal.TypesAgreeIff`, `Sweep.CountedAfterSweepIff`
and `Removal.WithinAfterEntryIff` say exactly when hot-plug breaks this: the counts survive every removal,
and break when the slot of a CAM that was removed in use is given away. Three failures are reached by runs of
a new plugin, for pools of any size but none. `Promise.PromiseKeptIff` says, for every channel of a known source,
exactly when ProvidesTransponder promises what tuning does not deliver and the other way round, with
witnesses of both reached by runs that remove nothing. `Tuning.SuccessFromPool` says exactly when
SetChannelDevice succeeds, slot by slot, `Tuning.SuccessIff` and `Tuning.FirstTaken` what the device then has,
and `CamStealing.CamPartIff` what its CAM part does; no device that VDR uses is ever touched
(`CamStealing.InUseUndisturbed`). `Counting.UpdateDevicesEnables` says how many devices are enabled: as many as
there are tuners that may be used at the same time. `CamStealing.RightCamIff` says when a live-view tune
ends with a CAM of the right slot, and `CamStealing.StealPaysOff` that a stolen CAM is really obtained.
`Reconcile.TunersReconciled` and `Reconcile.CamsReconciled` say that a sweep brings the pools into agreement
with the list of netceivers and that a second sweep changes nothing.

## How the source is represented

- A byte is an integer from 0 to 255; masks and shifts are written as division and remainder. The
  wrap-around of ring indices by `& (posSize - 1)` is `Wrap`, and `PacketRing.WrapIsMask` proves the two
  equal for a power of two.
- `write()` on a filter's socket has one of three outcomes: delivered, dropped (the queue is full) or
  broken. `reader(k)` is the outcome of the filter's k-th write, so every theorem holds for every reader.
  `sent` lists all sections handed to `write()`; `Received` are those that were delivered.
- The action loop may read up to three bytes past the packet (`filter.c:431-449`). The method
  `HandlePacket` takes these bytes as a parameter, and its contract does not depend on them.
- The table id 0xffff of a PID without sections reaches `Matches` as an unsigned char, that is, as 0xFF.
- The sender's packet `Wire(t)` is a sequence of bytes made of its fields; `Read` finds the fields again, and the
  only packets that have none are those whose adaptation field leads out of them.
- Sections have a section_length of at least 1, because `PutSection` looks only when more than three bytes
  are there; `Sections.WholeSectionWrittenIff` gives the exact condition. A table id of 0xFF is not excluded.
- `GarbageCollect` is given the set of handles whose reader is gone. A newly opened filter gets a handle
  that none of the filters has which the collection in the same call leaves, as the operating system does
  with descriptors; it may be one that the collection has just closed.
- A pointer into a pool is an index; a type of -1 and a null pointer are `None`. The limit of an
  unknown type (the source reads the word before the array) is an arbitrary number `limit(None)`.
- `covers` stands for the lookup of a satellite position in the lists that netceivers announce; it is
  arbitrary and may change between steps.
- `sameTransponder`, `idle`, `priority` and `receiving` are answers of the frontend and of VDR; they are
  parameters or fields that any step may change.
- The UUID argument of the CAM functions is optional; all callers leave it open.
- A timestamp of `None` means that the source leaves the caller's variable as it was, as GetStart does when
  it gives a held packet again (packetbuffer.c:180-186).
- The class methods of `mcli.c` and `device.c` take the state as a value along as a ghost parameter `s`;
  `Is(s)` and `At(s, i)` say that the objects are as `s` says.

## Model

| member | source | states |
|---|---|---|
| Bits.BitAndBits | filter.c:88-92 | bit by bit, the masking of table ids is "and" |
| Sections.MatchesIff | filter.c:88-92 | a section matches if and only if it is on the filter's PID, its table id agrees with the filter's in every bit under the mask, and the filter's has no bit outside the mask |
| Sections.BufferBound | filter.c:125-175 | between calls a buffer holds at most 4097 bytes and no complete section; with chunks that fit in a packet the overflow branch is never taken |
| Sections.WholeSectionWrittenIff | filter.c:143-160 | a chunk that is one whole section is written if and only if it has at least 4 bytes |
| Sections.OverflowDrops | filter.c:134-152 | a chunk that does not fit in the buffer of 65536 bytes makes the filter drop everything; below that nothing is dropped |
| Sections.ClosedByFailure | filter.c:150-160 | a filter is closed by a failed write, and by nothing else |
| Sections.ReceivedIff | filter.c:150-157 | the reader receives the sections whose write was delivered, each once |
| Sections.ReceivedAll | filter.c:150-157 | when no write is dropped or fails, what was received is what was sent, in order |
| Chunking.ChunksPartition | filter.c:425-457 | the chunks of a packet are, in order, exactly its payload after the pointer byte, or nothing when adaptation field or pointer overruns; only the first can lack the start mark; all are on the packet's PID and at most 184 bytes long |
| Chunking.SectionChunksPartition | filter.c:447-455 | the loop over in-packet section lengths loses no byte and marks every chunk as a start |
| Demultiplexer.RunIsRunChunks | filter.c:419-458 | handling packets one by one is handling the stream of all their chunks |
| Demultiplexer.GetAfterSet | filter.c:296-347 | after SetPid with a table id, GetTidFromPid finds it for that PID, and what it found before for all others |
| Demultiplexer.GetAfterAdd | filter.c:311-347 | after SetPid without a table id a new PID has none, and every other one the table id it had |
| Isolation.FiltersAreIndependent | filter.c:466-495 | the filters after any chunks are the outcomes of each filter run alone with the table id of its PID |
| Isolation.PidsDoNotInterfere | filter.c:427-495 | the filters on a PID end as the packets of that PID alone would have left them |
| Isolation.FateKeepsIdentity | filter.c:125-175 | a filter keeps its handle, PID, table id, mask and reader |
| Packetiser.SectionDeclares | filter.c:143-150 | the length that PutSection reads is the one a section has when its header is written by section 2.4.4 |
| Packetiser.WireRead | filter.c:425-432 | of a packet written in bytes by section 2.4.3, Action finds PID, unit start mark and payload, whatever adaptation field comes before it |
| Packetiser.WireChunks | filter.c:425-457 | what is handed on is cut from that payload: all of it, all after the pointer byte, or nothing if the pointer leads out of it |
| Packetiser.OverrunOrWire | filter.c:425-432 | every packet is one so written, or its adaptation field leads out of it and nothing is handed on |
| Packetiser.PacketiseObeysRule | filter.c:419-457 | every list of sections has packets that carry it by the rule of section 2.4.4, with any adaptation fields that leave room for it, so the round trip is not vacuous |
| RoundTrip.StartChunks | filter.c:432-455 | a packet that starts a unit is cut into the rest of the old section and the sections that begin in it |
| RoundTrip.Continuation | filter.c:125-152 | a chunk that goes on with a section either extends it or completes it, byte for byte |
| RoundTrip.SectionsServed | filter.c:447-455 | whole sections, a cut one and stuffing in one packet: the whole ones are written, the cut one is in progress |
| RoundTrip.PacketServed | filter.c:427-457 | one packet, of either kind, serves exactly the sections that end in it |
| RoundTrip.Reassembled | filter.c:419-457 | from a filter in the middle of a section: that section and then exactly the matching ones |
| Reassembly.QuietRun | filter.c:125-175 | whatever packets arrive, no filter holds a complete section between two packets |
| Reassembly.QuietAlways | filter.c:125-294 | the same over any run of openings, closings and packets |
| Writing.WrittenIsSent | filter.c:125-175 | a surviving filter has sent what was written, and nothing else |
| Writing.WrittenUpToFailure | filter.c:480-494 | what a filter hands to write() is what it would hand to a reader that takes everything, up to and including the first failure, after which it is deleted |
| Reassembly.SectionsArrive | filter.c:419-495 | reassembly round trip: exactly the matching sections, in order, whatever other PIDs do; deleted if and only if one of those writes fails, and then exactly those up to the failed one were handed to write() |
| Reassembly.ReaderReceives | filter.c:125-175 | a reader that takes every write receives exactly the matching sections |
| Reassembly.PacketiseThenReassemble | filter.c:419-495 | a filter that masks everything away gets back the very list that was packetised |
| Reassembly.Resynchronises | filter.c:419-495 | after arbitrary loss: at most one junk section, then exactly the matching sections that begin in the run |
| StayingOpen.StaysThrough | filter.c:247-294 | a filter that nobody closes or collects is in the end what the packets alone have made of it |
| StayingOpen.SectionsArriveThroughout | filter.c:247-495 | the round trip for such a filter, whatever other filters are opened, closed and collected; if a write fails there is a time at which it is gone |
| StayingOpen.ResynchronisesThroughout | filter.c:247-495 | self-synchronisation for such a filter |
| Registry.RegistryHolds | filter.c:247-347 | over any run each PID has at most one entry, every open filter's PID has one, handles are distinct |
| Registry.CloseReturnsLastPid | filter.c:247-263 | CloseFilter returns the PID exactly when it closed the last filter on it; then no filter and no entry for it is left; no other entry changes |
| Registry.CollectIff | filter.c:397-417 | the collection keeps exactly the filters whose reader is not gone |
| Registry.OpeningKeepsTids | filter.c:265-294 | opening a filter leaves all table ids as they are; a PID without entry gets one without table id |
| Registry.ClosingKeepsTids | filter.c:247-263 | closing takes the table id of the PID that it returns, and leaves all others |
| Registry.OpenKeepsRegistered | filter.c:265-294 | opening keeps the registry in order and makes its PID wanted |
| Registry.ChunkKeepsRegistered | filter.c:466-495 | so does a chunk, whose writes may delete filters |
| FilterObjects.Filter.constructor | filter.c:94-116 | a new filter is empty and open |
| FilterObjects.Filter.IsMatch | filter.c:88-92 | PID equal and table id equal after masking |
| FilterObjects.Filter.Reset | filter.c:177-186 | forgets the collected bytes and nothing else |
| FilterObjects.Filter.PutSection | filter.c:125-175 | the buffer filled in place does what the step function does: waits, resets, overflows, collects, writes |
| FilterObjects.Filters.constructor | filter.c:221-225 | no PIDs, no filters |
| FilterObjects.Filters.LookupTid | filter.c:296-309 | the first entry of the PID, or -1 |
| FilterObjects.Filters.SetPid | filter.c:311-347 | changes, adds or deletes the entry of one PID |
| FilterObjects.Filters.Distribute | filter.c:480-494 | the chunk goes to every matching filter; those whose write fails are deleted while the list is walked, and none is skipped |
| FilterObjects.Filters.ProcessChunk | filter.c:466-495 | table id tracking and distribution |
| FilterObjects.Filters.HandleSections | filter.c:447-455 | the while loop terminates and hands on exactly the section chunks, whatever lies behind the packet |
| FilterObjects.Filters.HandlePacket | filter.c:423-457 | one round of the action loop; the result does not depend on bytes past the packet |
| FilterObjects.Filters.WantPid | filter.c:386-395 | some open filter is on the PID |
| FilterObjects.Filters.GetPid | filter.c:349-373 | the PID of the handle if exactly one filter is on it |
| FilterObjects.Filters.GarbageCollect | filter.c:397-417 | deletes exactly the filters whose reader is gone |
| FilterObjects.Filters.OpenFilter | filter.c:265-294 | collects, registers the PID if it is new, appends the filter |
| FilterObjects.Filters.CloseFilter | filter.c:247-263 | collects, unregisters the PID if this was its last filter, deletes the filter |
| Regions.LaidOutApart | packetbuffer.c:79-93 | regions in one or two upward runs, the second below the first, are pairwise disjoint |
| Regions.ShapeByOffsets | packetbuffer.c:82 | comparing the oldest with the newest offset tells the one-run and the two-run shape apart |
| Regions.LaidOutFits | packetbuffer.c:79-93 | so many regions of a minimum size fit in the data area and no more |
| PacketRing.WrapIsMask | packetbuffer.c:207 | masking with a power of two minus one wraps an index that ran past the end |
| PacketRing.SlotsIsPow2 | packetbuffer.c:32-42 | up to 32768 packets the constructor rounds up to a power of two |
| RingSafety.FindSpaceByRegions | packetbuffer.c:66-95 | what FindSpace answers, in terms of the shape of the layout |
| RingSafety.PlacementSafeIff | packetbuffer.c:79-93 | the exact condition: a granted region overlaps no queued packet if and only if the gap is not overrun |
| RingSafety.PlacedLaidOut | packetbuffer.c:98-126 | then the new region continues the layout |
| RingSafety.RefusedIff | packetbuffer.c:108-117 | PutStart is refused exactly when there is no room behind the newest region nor, in one run, before the oldest |
| RingSafety.RefusedOnlyWhenFull | packetbuffer.c:108-117 | and only when the queued regions leave less than twice the size |
| RingSafety.RefusedOnlyWhenFullOf | packetbuffer.c:108-117 | with packets of one size no more than two are then missing |
| RingSafety.NeverFull | packetbuffer.c:74-78 | the queue and the reserved packet never fill all slots |
| RingQueue.PutStartRefines | packetbuffer.c:98-127 | PutStart leaves the queue as it is; a refused one changes nothing at all |
| RingQueue.FillRefines | packetbuffer.c:126 | writing into the reserved region changes no queued packet |
| RingQueue.PutEndRefines | packetbuffer.c:130-144 | PutEnd appends the first bytes of the reserved region, at most all of it |
| RingQueue.GetStartRefines | packetbuffer.c:178-199 | while packets are held GetStart gives the one that posRead points to, which after a coalesced read may be the packet behind them; otherwise it takes the head, or drops everything after Invalidate |
| RingQueue.GetEndRefines | packetbuffer.c:202-209 | GetEnd removes exactly the held packets |
| RingRun.MultipleReadsOn | packetbuffer.c:213-270 | GetStartMultiple reads the oldest packet and all that can be read with it, and no more |
| RingRun.MultipleStops | packetbuffer.c:213-270 | with packets of one size it stops only at the end of the queue, before a packet with flags, for want of room, or where the data area begins anew |
| RingRun.GetStartMultipleRefines | packetbuffer.c:213-270 | a coalesced read gives the concatenation of the packets it holds, within maxsize unless it is a single one, if they were stored whole |
| RingRun.StepRefines | packetbuffer.c:66-283 | every step of either side is the step of the queue |
| RingRun.RunRefines | packetbuffer.c:66-283 | over every run without gap overrun, in every interleaving, the callers see what a queue of byte strings shows |
| RingRun.RefusedInRun | packetbuffer.c:66-127 | so it is in every state of a run |
| RingRun.IndicesTellEmpty | packetbuffer.c:74-78 | in every reachable state equal indices mean an empty queue |
| RingRun.AnyStepInBounds | packetbuffer.c:66-209 | every step keeps every descriptor inside the data area, also where the gap is overrun |
| RingRun.RunRing | packetbuffer.c:66-209 | and so does every run |
| RingRun.FreshInv | packetbuffer.c:27-56 | a new buffer meets the invariant and is the empty queue |
| RingRun.TransportBufferInv | filter.c:275 | the plugin's buffer of 10000 packets of 188 bytes has 16384 slots and meets the invariant |
| RingHeld.GivenAfterMultiple | packetbuffer.c:147-199 | after a coalesced read a further GetStart gives a held packet if and only if the whole queue is held, and otherwise the packet behind the held ones |
| RingHeld.StepLeaves | packetbuffer.c:98-144 | no step of the producer moves or changes a queued packet |
| RingHeld.HeldStays | packetbuffer.c:98-209 | between GetStart and GetEnd the held packets stay in place, byte for byte, over any steps of the producer |
| RingOverrun.OverrunOverwrites | packetbuffer.c:90-91 | where the gap is overrun, PutStart grants a region that contains the first byte of the oldest packet |
| RingOverrun.LaggingReached | packetbuffer.c:66-209 | in the buffer of filter.c:275, 9999 packets put, two read and two put lead to a full gap, with the layout in order |
| RingOverrun.LaggingReaderOverwritten | packetbuffer.c:90-91 | the next packet is then put over the oldest queued one, and the reader gets the newest packet in place of the oldest |
| RingRepair.RepairedIff | packetbuffer.c:90 | comparing by `<=` with the reader's offset instead refuses exactly the placements that overrun the gap |
| RingRepair.StrictRefusesExactFit | packetbuffer.c:90 | `<` with the reader's offset would refuse exact fits as well |
| RingRepair.RepairedRunRefines | packetbuffer.c:66-283 | with that comparison the refinement holds over every run |
| RingRepair.RepairedHeldStays | packetbuffer.c:98-209 | and the consumer's packets stay in place over any steps of the producer |
| Relaying.PacketsRelayed | filter.c:231-245 | PutTS and the loop of Action, interleaving in any way: at any time the loop has handled a prefix of the packets there was room for, unchanged |
| Relaying.SectionsRelayed | filter.c:231-495 | when no gap is overrun and no PutStart refused, and all is taken, every filter has written out exactly its sections |
| Relaying.AttentiveSuffices | filter.c:231-245 | a reader that takes every packet before the next is put meets these conditions |
| Relaying.EveryPacketRelayed | filter.c:231-245 | so from a new buffer every packet is handled |
| PacketBuffers.PacketBuffer.constructor | packetbuffer.c:27-56 | the rounding loop and an empty ring |
| PacketBuffers.PacketBuffer.FindSpace | packetbuffer.c:66-95 | the offset that the step function gives |
| PacketBuffers.PacketBuffer.PutStart | packetbuffer.c:98-127 | reserves the region and holds the lock, or changes nothing |
| PacketBuffers.PacketBuffer.Fill | packetbuffer.c:126 | the producer's bytes, in place |
| PacketBuffers.PacketBuffer.PutEnd | packetbuffer.c:130-144 | stores the clipped size and moves the write index |
| PacketBuffers.PacketBuffer.GetStart | packetbuffer.c:178-199 | the cases of GetStart, with the timestamp left alone when a packet is given again |
| PacketBuffers.PacketBuffer.GetEnd | packetbuffer.c:202-209 | moves the read index over the held packets |
| PacketBuffers.PacketBuffer.GetStartMultiple | packetbuffer.c:213-270 | the look-ahead loop finds the same packets as the recursive scan and leaves posRead on the last one looked at |
| PacketBuffers.PacketBuffer.Invalidate | packetbuffer.c:280-283 | sets the flag |
| PoolInvariants.TakeTunerKeeps | mcli.c:841-864 | taking an available tuner keeps exclusivity, agreement of types, and limits |
| PoolInvariants.ReleaseTunerExclusive | mcli.c:865-886 | giving it back keeps exclusivity |
| PoolInvariants.TakeCamKeeps | mcli.c:541-560 | taking an available CAM keeps counts exact, and within max |
| PoolInvariants.ReleaseCamKeeps | mcli.c:562-574 | so does giving it back |
| PoolSteps.SetEnableKeeps | device.c:139-211 | enabling and disabling keep all invariants, although enabling tunes without a tuner |
| PoolSteps.ReleaseKeeps | device.c:213-258 | so does temporary disabling |
| PoolSteps.TunerPartKeeps | device.c:649-692 | so does the tuner part of SetChannelDevice, types and limits for channels of a known source |
| PoolSteps.SetChannelKeeps | device.c:583-850 | so does SetChannelDevice as a whole, stealing included |
| PoolSteps.TempDisableGivesBack | device.c:213-258 | an idle device, or one that has to, ends untuned, without tuner and CAM, both given back to the pools; a busy one changes nothing |
| PoolSteps.DisableGivesBack | device.c:139-162 | so does disabling |
| PoolSteps.ReconfigureKeeps | mcli.c:1136-1149 | reconfiguration keeps all invariants and leaves both pools without entries and users |
| Counting.InUseCounted | mcli.c:744-755 | the count of a type is the number of slots of that type in use |
| Counting.UsersCounted | mcli.c:541-574 | the references to a CAM are the number of devices that hold it, so that exact use counts are numbers of users |
| Counting.UsableBounds | mcli.c:727-742 | per type: at most the tuners there are and at most the limit, one of the two reached, none for a negative limit |
| Counting.TunerCountIsMost | mcli.c:727-742 | the number is the size of a largest set of tuner slots in which no type exceeds its limit |
| Counting.UpdateDevicesEnables | mcli.c:1162-1178 | the first devices are enabled, as many as that number; of the others only those that were enabled and are receiving stay so; no other device changes |
| Sweep.FindCamFirst | mcli.c:416-426 | the first live entry of the netceiver in the slot, or in any slot for -1 |
| Sweep.FreeCamFirst | mcli.c:428-437 | the first slot without a CAM |
| Sweep.FindTunerFirst | mcli.c:687-697 | the first live entry with the UUID |
| Sweep.FreeTunerFirst | mcli.c:757-770 | the first slot without a tuner |
| Sweep.SweepKeeps | mcli.c:917-1015 | whatever a sweep removes, entries stay distinct and references in order |
| Sweep.SweepKeepsStrict | mcli.c:917-1015 | a sweep that removes no tuner in use keeps types and limits |
| Sweep.SweepKeepsExact | mcli.c:917-1015 | a sweep that removes no CAM in use keeps every count the number of holders, also when a maximum falls below it, and leaves no users on free slots |
| Sweep.CountedAfterSweepIff | mcli.c:438-510 | a sweep keeps every count the number of holders if and only if it gives no slot away that still has users, whatever it removes |
| Sweep.SweepKeepsWithin | mcli.c:438-510 | a sweep in which no CAM shrinks below its users leaves none with more users than it takes |
| PoolRuns.StepKeeps | mcli.c:888-1178 | every step keeps the invariants of all runs; calm ones types and limits; those that give away no slot with users, as those do not that remove no CAM in use, exact counts; those that leave room for the users counts within max |
| PoolRuns.RunKeeps | mcli.c:888-1178 | the same over whole runs |
| PoolRuns.NewPluginSound | mcli.c:125-152 | a new plugin meets all invariants |
| PoolRuns.HolderIsAlone | mcli.c:841-886 | in every reachable state a device's tuner is in use and nobody else's |
| PoolRuns.DisabledHoldNothing | device.c:139-162 | over every run a disabled device holds no tuner and no CAM and is not tuned |
| Promise.PromiseMatchesDelivery | device.c:350-402 | ProvidesTransponder says yes exactly when the tuner part ends with a tuner, unless the device holds one of the right type in the wrong place |
| Promise.WrongPositionDelivery | device.c:649-692 | what promise and delivery depend on in the excepted case, in terms of the pool before the call |
| Promise.PromiseKeptIff | device.c:350-402 | for every channel of a known source, exactly when a promise is broken, and exactly when more is delivered than promised |
| Promise.SatellitePromises | device.c:350-402 | for a satellite channel, the same in terms of types and limits |
| Promise.PromiseHoldsOnCalmRuns | device.c:350-402 | so in every state reached while limits are constant, no tuner in use is removed and sources are known |
| Promise.DeliversWhatWasAsked | device.c:663-692 | a device that ends with a tuner has one of an acceptable type that reaches the position |
| Promise.TuningDelivers | device.c:583-850 | the same for SetChannelDevice as a whole: whenever it returns true |
| Promise.TuningDeliversOnCalmRuns | device.c:583-850 | so in every state of a calm run |
| Promise.BrokenPromise | device.c:350-402 | a broken promise is reached by calm steps of a new plugin, for every size of the pools with room for two tuners |
| Promise.UnpromisedAtLimit | device.c:649-692 | so is a delivery without promise, at a limit that the own tuner reaches |
| Promise.UnpromisedTerrestrial | device.c:350-402 | and one for a terrestrial channel of the second system |
| Tuning.AvailableIsFirst | mcli.c:780-839 | TunerAvailable finds the first slot with a free tuner of the type that reaches the position, if the number in use is not the limit |
| Tuning.ObtainIff | device.c:333-340 | what could be had for a channel, slot by slot: a tuner of a type that serves it |
| Tuning.SuccessIff | device.c:583-850 | SetChannelDevice succeeds if and only if the device is enabled, the CAM part passes and it ends with a tuner; it is then tuned to the channel with a tuner that serves it, and otherwise stays with its old channel |
| Tuning.SuccessFromPool | device.c:583-850 | when it succeeds, from the slots of the pool and the device's own tuner alone |
| Tuning.SuitableKept | device.c:663-668 | a suitable tuner is kept |
| Tuning.FirstTaken | device.c:678-692 | a device without tuner takes the first that can be had, a DVB-S2 tuner for a DVB-S channel only where no DVB-S tuner can be had |
| Tuning.UnknownFails | device.c:678-830 | a tuning to an unknown source fails, unless the device has a lock on the transponder already and this is no scan |
| Tuning.UnknownTakesNone | device.c:678-692 | and it takes no tuner, at most a slot without one |
| Tuning.DisabledRefuses | device.c:316-402 | a disabled device promises nothing, and a request to tune it changes nothing |
| Tuning.EnablingTunes | device.c:139-211 | enabling a device that holds no tuner marks it as tuned to its last channel exactly when a tuner could be had, takes no tuner, and takes a CAM if one is wanted and free |
| CamStealing.SlotNamed | device.c:435-440 | the CAM slot that each CA number asks for |
| CamStealing.FirstCamIsFirst | mcli.c:512-539 | CAMAvailable finds the first CAM that fits, of the netceiver that is named or of any |
| CamStealing.TheftIff | mcli.c:576-598 | a theft succeeds if and only if some device of priority below zero has a CAM of the slot; the first of them loses tuner and CAM, and nothing else changes |
| CamStealing.CheckCamIff | device.c:430-449 | when CheckCAM passes in live view, and that it robs a device only if a CAM is needed and none is free |
| CamStealing.CamPartIff | device.c:617-648 | the CAM part in full: when it refuses, whom it robs, and which CAM the device then has |
| CamStealing.LiveHasCam | device.c:617-648 | in any state, a live-view tune to an encrypted channel passes only with a CAM |
| CamStealing.InUseUndisturbed | device.c:583-850 | no device that VDR uses is touched when another one is tuned |
| CamStealing.TheftHelpsIff | mcli.c:576-598 | the exact condition under which a theft makes a CAM available |
| CamStealing.CheckedMeansAvailable | device.c:430-449 | after CheckCAM has said yes a CAM for the slot is available |
| CamStealing.StealPaysOff | device.c:617-648 | a live-view tune that passes CheckCAM goes on with a CAM of the right slot; it passes if and only if one is free or can be stolen |
| CamStealing.RightCamIff | device.c:617-648 | for every device, when the tune passes, and when it then has a CAM of the right slot |
| CamStealing.HeldCamStays | device.c:617-648 | a device that holds a CAM of another slot keeps it and takes none, although it may rob another device |
| CamStealing.StealPaysOffOnRuns | device.c:617-648 | so for every device in every state reached while no CAM is removed, or shrinks, under its users |
| Reconcile.TunersReconciled | mcli.c:997-1014 | with enough slots a sweep leaves every fresh tuner present, new ones as listed, every stale one absent, all other entries as they were, and repeating it changes nothing |
| Reconcile.CamsReconciled | mcli.c:438-510 | the same for CAMs, with their maximum number of users; known CAMs keep slot and use count, unlisted ones everything |
| Reconcile.CamPresentIff | mcli.c:455-480 | from a sweep on there is a CAM if there was one, or a netceiver that is not silent lists a module of a known kind |
| Removal.TypesAgreeIff | mcli.c:757-778 | entering or removing one listed tuner keeps types in agreement if and only if it removes none in use |
| Removal.CountedAfterRemoval | mcli.c:498-510 | removing CAMs keeps every count the number of holders; it leaves users on a free slot if and only if one was in use |
| Removal.CountedAfterEntryIff | mcli.c:438-497 | entering a CAM keeps every count the number of holders if and only if it is known or its slot has no users |
| Removal.WithinAfterEntryIff | mcli.c:438-497 | entering a CAM keeps counts within max if and only if a known one still takes its users |
| Removal.TypeChangesUnderDevice | mcli.c:757-778 | reached by a run: a slot in use comes to hold a tuner of another type |
| Removal.CountForgetsHolder | mcli.c:438-510 | reached by a run: a CAM that is removed and comes back is counted as unused although a device holds it |
| Removal.CamPulledUnderUser | mcli.c:470-483 | reached by a run: a pulled module has a user and takes none, and the count is still exact |
| Plugins.Plugin.constructor | mcli.c:125-152 | empty pools, no devices |
| Plugins.Plugin.TunerCountByType | mcli.c:744-755 | how many tuners of a type are in use |
| Plugins.Plugin.TunerSatellitePositionLookup | mcli.c:651-686 | other types reach every position, and no position is reached by all |
| Plugins.Plugin.TunerAvailable | mcli.c:780-839 | the first fitting tuner, none at the limit |
| Plugins.Plugin.TunerAlloc | mcli.c:841-864 | the same, marked in use |
| Plugins.Plugin.TunerFree | mcli.c:865-886 | clears the mark of one slot |
| Plugins.Plugin.CamAvailable | mcli.c:512-539 | the first CAM of the slot with room |
| Plugins.Plugin.CamAlloc | mcli.c:541-560 | the same, counted once more |
| Plugins.Plugin.CamFree | mcli.c:562-574 | counted once less, never below zero |
| Plugins.Plugin.CamSteal | mcli.c:576-598 | disables the first device that can be robbed |
| Plugins.Plugin.AddDevice | mcli.c:239-255 | one more device, disabled |
| Plugins.Plugin.TunerCount | mcli.c:727-742 | the number of tuners of each type, capped by its limit, in all |
| Plugins.Plugin.UpdateDevices | mcli.c:1162-1178 | the loop over the devices with its countdown |
| Plugins.Plugin.Reconfigure | mcli.c:1136-1149 | disables all devices, then clears both pools |
| Plugins.Plugin.CamFindByUUID | mcli.c:416-426 | the first live entry with this UUID and slot, or with any slot for -1 |
| Plugins.Plugin.CamPoolFindFree | mcli.c:428-437 | the first slot without a CAM |
| Plugins.Plugin.CamPoolAdd | mcli.c:438-497 | updates and enters the listed CAMs until the pool is full |
| Plugins.Plugin.CamPoolDel | mcli.c:498-510 | removes all CAMs of a netceiver and says whether there were any |
| Plugins.Plugin.TunerFindByUUID | mcli.c:687-697 | the first live entry with this UUID |
| Plugins.Plugin.TunerPoolAdd | mcli.c:757-770 | the first slot without a tuner takes it |
| Plugins.Plugin.SweepOneTuner | mcli.c:997-1014 | removes or enters one listed tuner |
| Plugins.Plugin.SweepNetceivers | mcli.c:917-1015 | the nested loops of the sweep |
| Plugins.McliDevice.constructor | device.c:67-107 | a device without references |
| Plugins.McliDevice.SetEnable | device.c:139-211 | gives back CAM and tuner, or tunes again to the last channel |
| Plugins.McliDevice.SetTempDisable | device.c:213-258 | gives back CAM and tuner if the device is idle or has to |
| Plugins.McliDevice.ProvidesSource | device.c:316-348 | own tuner, or one that could be had |
| Plugins.McliDevice.ProvidesTransponder | device.c:350-402 | the same for the channel's system as well |
| Plugins.McliDevice.CheckCam | device.c:430-449 | own CAM, a free one, or a stolen one |
| Plugins.McliDevice.TunerPart | device.c:649-692 | keeps, changes or loses the tuner; the second release of the source never finds one |
| Plugins.McliDevice.CamPart | device.c:617-648 | takes a CAM or refuses |
| Plugins.McliDevice.SetChannelDevice | device.c:583-850 | the whole of it, as far as pools and references go |

## Left out

- FilterObjects.Filters.GarbageCollect: is given the filters to delete; the `errno` test that keeps a filter whose probe failed in another way is part of that choice.
- Plugins.Plugin.TunerSatellitePositionLookup: takes the lookup in the netceivers' satellite lists as an arbitrary predicate `covers`, because the lists come from a library outside this repository.
- Plugins.Plugin.Reconfigure: ends before `InitMcli` and `UpdateDevices`, which are the steps AddDevice and Update, since other calls can come in between (mcli.c:1157-1159).
- Plugins.Plugin.CamPoolAdd: has no return value, which is only logged, and no fields `trigger` and `status`.
- Tuning.EnablingTunes: is for devices whose last channel is of a known source; for a new device the source looks for a tuner of type -1.
- PoolRuns.RunKeeps: does not claim that a tuned device holds a tuner, because `SetEnable(true)` tunes without allocating one (device.c:184-208).
- PoolRuns.RunKeeps: a plugin with a negative limit for some type is outside the claim on limits, because no count is below it.
- RingRun.RunRefines: asks that the packets have at least `least` bytes, that the data area is smaller than `least` times the number of slots, and that wrapped producers find a big enough gap; zero-size packets and more than 32768 packets are not covered.
- RingRun.GetStartMultipleRefines: says what the bytes are only for packets stored with the size that was reserved for them; otherwise the source compares the wrong ends.
- Promise.PromiseMatchesDelivery: names ProvidesSource for a channel of the second system that is not on a satellite; PromiseKeptIff has the case in terms of the pool.
- Reassembly.Resynchronises: the run begins with a packet that starts a unit; before one, what is lost cannot be told.
- Duplicate packets, continuity counters and scrambling are not part of the packetisation rule, because the source does not look at them.
- The three-byte probe that IsClosed sends (filter.c:188-204), `errno` and sockets: the set of readers that are gone is a parameter.
- Relaying.SectionsRelayed: has PutTS with packets of wanted PIDs only, as WantPid lets them through, and no filters opened or closed in the meantime, for which see StayingOpen.SectionsArriveThroughout.
- Timeouts and sleeping in the packet buffer: a timeout is a refused PutStart or an empty GetStart.
- Overflow of 32-bit sizes in the packet buffer, and races within a step: steps are whole methods, with PutStart to PutEnd and GetStart to GetEnd split.
- The m_Used > length block of PutSection (filter.c:162-172): it cannot be entered after a complete section has been taken out.
- `m_cam_disable` mode.
- A filter whose socket pair could not be opened, and whose handle is then -1.
- Tuning parameters, PIDs, signal state and all calls into the NetCeiver libraries: code that is not part of this repository.
- TranslateTypePos for different VDR versions (device.c:532-581): type and position are data of the channel.
- VDR's ring buffer, menus, SVDRP and service commands, argument parsing and setup: user interface and input/output.
