# Verification of the disk, driver-patching and emulator logic

Dafny models of the parts of this repository where a small mistake is expensive: the
decompressor that unpacks installer archives, the tools that write into raw FAT12/FAT16
disk images, the scripts that patch Windows 95 virtual device drivers, the dirty-rectangle
screen update of the FastDoom port, and four pieces of the emulator (ACPI registers, the
real-time clock, the log writer and the image paths in the configuration file). Each
model has the branches, constants and error cases of the code it follows; each operation
is proved against an independent description of what it is for.

`dafny verify dfyconfig.toml` checks everything.

## How it is built

**Decompressor** (`Bits`, `Canonical`, `Tables`, `Huffman`, `BitReader`, `Dcl`, `Blast`).
`Dcl` says what a PKWare DCL stream is without decoding one: tokens, the bits each token is
encoded to, and the bytes a token list expands to. `Outcome(data, r)` relates any input to the
one result the format allows, errors included. `Blasting.Blast` is the loop of the tool, with its
bit reader and table classes, and is proved to return that result for every input. The
round trip and the fact that "bad DCL code" cannot happen are consequences.

**FAT volumes** (`FatEntries`, `Chains`, `Geometry`, `Volume`, `VolumeFiles`, `Directory`, `FatImage`, `FatLayout`,
`FatVolume`, `FatCopy`, `FatMakeDir`, `FatRead`, `FatTool`, `FatSession`, `FatPut`, `FatInPlace`, `FatZeroFree`, `FatFloppy`,
`FatSample`, `FatSampleImage`). `Volume` is the abstract file system: `LookUp(v, d, name)` is `Missing`, `Directory` or
`File(bytes)`, and `VolOK` is the invariant: chains end in an end mark, never loop and never share
a cluster; every entry's chain is in use and long enough; every chain is owned by exactly one entry; names are
distinct; "." and ".." point where they should, and the directories form a tree. `Updates` says
that one name has changed its meaning and no other has; `Becomes` allows besides that directories with nothing in them
have gone, and adds that no cluster is lost. `Lost` is the set of clusters that are neither
free nor in a chain that some entry owns. `ImageOK(g, bytes, L)` says that the bytes of an image hold such a volume and
that all copies of the FAT agree; `L` (where the chains run and which are directories) is a proof
witness that the code does not see, and the bytes determine it (`FatLayout.LayoutUnique`). The tools are methods that
rewrite the image array in place, each with its exact answer: when it refuses for want of a slot or of clusters, and when not.
The reader (`FatRead`, `FatTool`) is a function of any image's bytes; that it reads what the volume means is proved of those that hold one.
`FatSampleImage` spells out the bytes of an image on which the tools do harm.

**Driver patching** (`VxdStream`, `VxdPatch`, `VxdMaxPhys`, `VxdMaxFile`). The x86 disassembler is an
arbitrary function of 16 bytes and an address, constrained only by `Sound`: an instruction fits in the bytes,
depends on no bytes behind it, and the three instructions the patches write decode as
themselves. Everything else (service calls, resynchronising, pages, file offsets) is modelled.
What the authors leave implicit is explicit here: `Apart` (no file byte is used twice),
`Straight` (an edited instruction's bytes are adjacent in the file) and `StillSkipped` (no byte that
started no instruction comes to start one); the theorem about the patched program
is an equivalence with the last. Only such bytes with an edit in the 15 bytes behind them can wake, so that a stock
file with none of those needs no look at the result (`VxdPatch.FarPatched`, `VxdMaxFile.FileDoneFar`). `VxdStream.ToySound` exhibits a decoder that meets `Sound`, `FatFloppy.BlankVolume` an
image that meets the FAT invariant.

**Fixups** (`LeFixups`, `LePages`, `Irq2`, `Irq2Patch`, `W3Directory`). Encoding and decoding of the fixup records of the LX/LE format (IBM's
"LX - Linear eXecutable Module Format Description", section "Fixup Record Table"), the report that says which object and place each fixup patches, the list records of
VPICD as a special case, and the two patch scripts compared through the address mapping.

**Screen update** (`Planar`). Four planes as a two-dimensional array, three pages, moving
source and destination pointers as in the C code.

**Emulator** (`Acpi`, `Nvr`, `LogFold`, `ImagePaths`). ACPI registers are sets of raised bits.

## Where code and expectation part

These are proved, each with the exact condition.

* `FatInPlace.SameMeans`: `fatput.py` reports "already byte-identical" and leaves the size alone
  when a longer file's extra bytes happen to equal what stands behind the end of the old one in its last cluster. The
  report is true of the file exactly when the lengths are equal (`FatSampleImage.SlackTaken` is a file where it is not).
* `FatCopy.RemoveFile`: `fatcp.py --rm` removes directories as well. Names inside are lost exactly when there are any:
  then no volume that the image could hold is the old one without that name (`FatSample.RemovingLoses`).
* `FatCopy.PutFile`: it does not notice either that the name it replaces is a directory's. The result is the old volume
  with the file in place exactly when the directory was empty and `--attr` was given; without it the entry stays a
  directory's, whose slots are the file's bytes (`FatSample.PuttingLoses`).
* `FatMakeDir.MakeDir`: `--mkdir` looks for directories only, so beside a file of that name
  it makes a second entry of the same name; what is left is a volume exactly when the name was unused (`FatSample.MakingSpoils`).
* `FatRead.NameBack`: a name comes back from a directory entry as it went in exactly when neither
  part ends in something `rstrip` removes and a dot is followed by something.
* `VxdPatch.PatchedFile`: the patched program is the stock program with the chosen instructions
  replaced if and only if `StillSkipped` holds; `VxdStream.SkippedByteWakes` is an object where it does not, and
  `VxdStream.OnlyNearMatter` says which of its bytes decide.
* `Irq2.CheckPasses`: the final check of the IRQ2 patch passes exactly when each moved source stood
  once in the list it left.
* `Acpi.Device.SciAsRead`: the status register as a guest reads it includes the clock's request, the interrupt line
  does not: the two agree except exactly when that request is the only enabled event.
* `ImagePaths.MaskedPath`: an image under the user directory in a directory called `<exe_path>` is loaded from
  the program's directory instead.
* `ImagePaths.SaveAndLoad`: paths may have 4095 characters, but `save_image_file` writes them through a buffer of 2048. One
  that is not masked survives exactly when its saved form has at most 2047 (`ImagePaths.LongPath` is one that does not).
* `LogFold.SpuriousIff`: a logged message that reads like a repeat count is expanded as one. The tally is exact if and only
  if each such message that follows an engine message counts nothing, in its number and in the repeats of its own that get printed;
  `LogFold.AllTally` counts what is yielded too much, `LogFold.CountLookAlike` is a log where it is.
* `Geometry.Fat12Differs`: `fatls.py` decides FAT12 by comparing clusters plus 2 with 4085, where Microsoft's FAT specification
  compares clusters: the two agree exactly when there are neither 4083 nor 4084 clusters (`Geometry.Fat12DiffersThere`).

## Model

| member | source | states |
|---|---|---|
| Canonical.PrefixFree | tools/blast.py:32-54 | in any table of code lengths that does not oversubscribe, no symbol's code is a prefix of another's |
| Canonical.CodeUnique | tools/blast.py:74-85 | at most one symbol's code stands at the head of a bit string |
| Canonical.SlotInjective | tools/blast.py:46-54 | the counting sort of the table builder gives every symbol a slot of its own |
| Canonical.FirstIsKraft | tools/blast.py:76-84 | the running `first + count` of the decoder, scaled, is the partial Kraft sum of the table |
| Canonical.KraftFull | tools/blast.py:74-85 | a table whose Kraft sum is exactly full leaves no undecodable string and assigns every code inside its length |
| Tables.TablesUsable | tools/blast.py:18-26 | the three built-in tables are unambiguous and full, at 13, 7 and 8 bits |
| HuffmanTable.Tally | tools/blast.py:42-44 | the counts are the numbers of symbols of each length |
| HuffmanTable.Place | tools/blast.py:46-54 | after placing, the symbol table maps each symbol's canonical slot back to the symbol |
| HuffmanTable.Huffman.constructor | tools/blast.py:35-54 | the run-length form expands to the code lengths, and counts and symbols fit them |
| BitReading.BitReader.Bits | tools/blast.py:64-72 | hands out the next bits of the stream as a number, keeps the rest, and fails exactly when fewer are left |
| BitReading.BitReader.Decode | tools/blast.py:74-85 | consumes precisely one symbol's code and returns that symbol, fails only if no code is left in full, and never with "bad code" |
| BitReading.CodeWithin | tools/blast.py:74-85 | in a table full at `m` bits, any `m` bits begin with some code |
| BitReading.EveryBitsDecode | tools/blast.py:74-85 | any 13 bits begin with a literal's code, any 7 with a length's, any 8 with a distance's: "bad DCL code" is unreachable |
| Dcl.LengthSymbolUnique | tools/blast.py:28-29 | base and extra bits name each length from 2 to 519 in one way only |
| Dcl.TokenUnique | tools/blast.py:104-119 | two tokens cannot both stand at the head of the same bits |
| Dcl.OutcomeUnique | tools/blast.py:88-121 | every input has at most one result the format allows, success or error |
| Dcl.PackKeeps | tools/blast.py:64-72 | packing bits into bytes lowest first and reading them back gives the bits |
| Dcl.RoundTrip | tools/blast.py:88-121 | for every dictionary exponent 4 to 6, both literal modes and every legal token list, the result for the encoded list plus end token is exactly its LZ77 expansion |
| Blasting.CopyLoop | tools/blast.py:116-117 | copying byte by byte gives the periodic extension even where the copy overlaps itself |
| Blasting.ReadLength | tools/blast.py:106-107 | reads a length whose encoding stands next, or shows that none does |
| Blasting.ReadDistance | tools/blast.py:110-113 | reads a distance whose encoding stands next, or shows that none does |
| Blasting.ReadLiteral | tools/blast.py:119 | reads the byte whose coded or plain form stands next, or shows that none does |
| Blasting.ReadToken | tools/blast.py:105-119 | reads the token whose encoding stands next and leaves exactly the bits behind it, or shows that no token stands there |
| Blasting.Blast | tools/blast.py:88-121 | terminates on every input with the one allowed result: bad flag, bad dictionary, truncation, distance too far, or the expansion |
| FatEntries.SetGet | tools/fatcp.py:39-49 | a packed entry reads back and every other entry keeps its value although FAT12 neighbours share a byte |
| FatEntries.Fat12Set | tools/mkfloppy.py:65-73 | the byte-wise writer produces the same bytes as the word-wise one |
| Directory.SetEntries | tools/fatcp.py:42-49 | setting a packed entry is updating one place of the table |
| Chains.ChainDistinct | tools/fatcp.py:56-61 | a chain that ends visits no cluster twice, which is why the walk ends |
| Chains.ReleaseLaid | tools/fatcp.py:63-65 | freeing one chain leaves all others as they were |
| Chains.ReleaseConserves | tools/fatcp.py:63-65 | freeing returns exactly the chain's clusters and loses none |
| Chains.LinkLaid | tools/fatcp.py:67-78 | the newly linked clusters are a chain of their own, disjoint from all others |
| Chains.LinkConserves | tools/fatcp.py:67-78 | allocation takes exactly the new chain's clusters from the free ones and loses none |
| Geometry.OpenSame | tools/fatls.py:20-46 | writing behind the boot sectors never changes what opening the image finds |
| Geometry.Fat12Differs | tools/fatls.py:40-46 | the tool's choice of FAT12 is the specification's exactly unless there are 4083 or 4084 clusters |
| Geometry.Fat12DiffersThere | tools/fatls.py:40-46 | a concrete geometry where it is not |
| Geometry.WriteCluster | tools/fatcp.py:252-254 | writing at a cluster's offset changes that part of that cluster and no other part of the image |
| Geometry.WriteRoot | tools/fatcp.py:264-265 | the same for the root directory |
| Geometry.WriteFat | tools/fatcp.py:51-54 | the same for one copy of the FAT |
| FatVolume.FatRW.constructor | tools/fatls.py:39 | the table in memory is the image's first FAT |
| FatVolume.FatRW.Get | tools/fatls.py:48-52 | returns the table's entry |
| FatVolume.FatRW.Set | tools/fatcp.py:42-49 | changes one entry of the table in memory and nothing in the image |
| FatVolume.FatRW.Chain | tools/fatcp.py:56-61 | returns the clusters of the chain in order |
| FatVolume.FatRW.FreeChain | tools/fatcp.py:63-65 | zeroes the chain's entries and no other |
| FatVolume.FatRW.Alloc | tools/fatcp.py:67-78 | links the first free clusters in order, or refuses and changes nothing when there are too few |
| FatVolume.FatRW.FlushFat | tools/fatcp.py:51-54 | afterwards every copy of the FAT is the one in memory and nothing else has changed |
| FatVolume.FatRW.DirSlots | tools/fatcp.py:81-95 | yields every slot of a directory with its image offset, root or chained |
| Directory.WriteSlot | tools/fatcp.py:81-95 | slot `k` of a chained directory lies at its listed offset, and an entry written there changes slot `k` alone |
| Volume.InsertEmpty | tools/fatcp.py:214-222 | a new entry in the first free slot keeps the volume invariant |
| Chains.FirstFreeCount | tools/fatcp.py:67-75 | the search for free clusters falls short exactly when there are too few in the table |
| VolumeFiles.GivenUpKeeps | tools/fatcp.py:227-231 | freeing what a slot names, a file or an empty directory, leaves a volume: tree, owners and chains stay in order |
| VolumeFiles.PutKeeps | tools/fatcp.py:227-268 | over a file, an empty directory or nothing, putting keeps the invariant, changes the meaning of exactly one name to exactly the new bytes, and loses no cluster |
| VolumeFiles.PutNeeds | tools/fatcp.py:227-265 | whatever volume is read off afterwards, a put that lost no name was over no directory with something in it and left no directory's entry |
| VolumeFiles.RemoveKeeps | tools/fatcp.py:232-238 | removing a file or an empty directory keeps the invariant, makes exactly that name missing, and loses no cluster |
| VolumeFiles.RemoveNeeds | tools/fatcp.py:227-238 | whatever volume is read off afterwards, a removal that lost no name was of no directory with something in it |
| VolumeFiles.RoomLeft | tools/fatcp.py:67-75 | clusters run short exactly when those free and those of what is replaced are fewer than needed |
| FatLayout.LayoutUnique | tools/fatls.py:20-74 | the bytes of an image determine where its chains run and which are directories |
| Volume.MkDirKeeps | tools/fatcp.py:147-166 | a new directory keeps the invariant |
| Volume.MkDirUpdates | tools/fatcp.py:147-166 | it has nothing but "." and ".." in it, its name means it, and no other name changes |
| FatCopy.BlocksHold | tools/fatcp.py:250-254 | the padded clusters of a file begin with exactly its bytes |
| FatCopy.FindSlot | tools/fatcp.py:212-225 | finds the slot with the name, or else the first slot a new entry may take, and stops rightly at the end mark |
| FatCopy.StoredMeans | tools/fatcp.py:249-268 | what the written image shows is a volume with the file and no name lost exactly if the slot named no directory with something in it and got a file's entry |
| FatCopy.PutFile | tools/fatcp.py:208-268 | on the image, whatever the name stands for: "full" exactly when neither the name nor a free slot is there, "no space" exactly when free and replaced clusters are too few, both without a change; else the name holds exactly the data and nothing else is lost, if and only if it was no directory's, or an empty one's with `--attr`; in every case chain, clusters and all 32 bytes of the entry are as stated |
| FatCopy.RemoveFile | tools/fatcp.py:208-238 | on the image, whatever the name stands for: not found exactly when it is missing; else exactly that name becomes missing, if and only if no directory with something in it had it; in every case chain and entry are as stated |
| FatMakeDir.FindFree | tools/fatcp.py:134-144 | the search of the directory maker |
| FatMakeDir.SecondEntry | tools/fatcp.py:137-144 | taking a free slot for a name keeps names distinct exactly when the name was unused |
| FatMakeDir.MakeIn | tools/fatcp.py:148-167 | clearing the cluster, writing "." and "..", the entry and the FATs makes the image show the directory |
| FatMakeDir.MadeMeans | tools/fatcp.py:137-167 | what the image then shows is a volume with the new directory exactly if the name was unused |
| FatMakeDir.MakeDir | tools/fatcp.py:128-169 | on the image: exists, full or no space exactly when a directory has the name, no slot is free or no cluster is, without a change; else a new empty directory and no other change, if and only if the name was unused; in every case the entry, its slot and the new cluster's bytes are as stated |
| FatRead.TypedName | tools/fatcp.py:114-118 | a name from the command line can stand in an entry: it comes out as neither "." nor ".." nor a marked slot |
| FatRead.NameBack | tools/fatcp.py:114-118 | a name survives packing into an entry and listing exactly when it is tidy |
| FatRead.Ents | tools/fatls.py:56-67 | lists exactly the entries that are shown, in order and up to the end mark; where that is kept, all in use |
| FatRead.ListingIs | tools/fatls.py:69-74 | on any image: a listing is what the clusters visited show, one after the other, and there is none exactly if the walk leaves the volume or never ends |
| FatRead.List | tools/fatls.py:69-74 | the loop gives that listing of any cluster number on any image |
| FatRead.ReadEntry | tools/fatls.py:85-89 | on any image: the loop gives the bytes read from an entry, or leaves the volume |
| FatRead.ListDir | tools/fatls.py:69-74 | on a volume, that listing of a directory, root or chained, is exactly its entries |
| FatRead.Read | tools/fatls.py:85-89 | on a volume, exactly the bytes the volume says the file has |
| FatTool.ResolveDir | tools/fatcp.py:97-111 | follows the path through directories to the cluster it means, or fails where it breaks |
| FatTool.Resolve | tools/fatls.py:76-83 | on any image: takes the first entry shown under each part of the path, whatever it is, to the entry the path leads to, to nothing, or out of the volume |
| FatTool.ResolveIn | tools/fatls.py:76-83 | on a volume, a path whose inner names are directories leads to the first entry shown under its last name there, or to nothing |
| FatTool.WalkSame | tools/fatcp.py:97-111 | putting a file keeps every path to a directory |
| FatTool.PutIsReadBack | tools/fatcp.py:270-273 | resolving and reading the path after a put gives exactly the data |
| FatTool.Readback | tools/fatcp.py:270-273 | the tool's own comparison passes exactly if the first entry shown under the path holds the data |
| FatTool.CopyIn | tools/fatcp.py:208-278 | the whole command, for any path and name: bad name, no directory, full or no space exactly when it is so, without a change; else the name holds the data and nothing else is lost exactly if it could be put there, and the readback passes exactly if the first entry shown under the path holds the data, as it does when nothing else is shown under it |
| FatSession.Step | tools/fatcp.py:184-268 | one put, remove or mkdir given by path, whatever it names: its exact answer, no change when it refuses, its one effect if and only if it is harmless, and in every case what the image shows |
| FatSession.Check | tools/fatcp.py:208-225 | reading the directory, and the one named there, decides beforehand whether a command is harmless |
| FatSession.NoneLost | tools/fatcp.py:56-78 | along any run, free clusters and those that entries own are conserved |
| FatSession.Session | tools/fatcp.py:184-268 | over any list of commands up to the first that is carried out and not harmless: the image stays a volume, every command gives its exact answer and has its one effect, and no cluster is lost; that one command leaves what the tool wrote, which is no volume with its effect |
| FatSample.RemovingLoses | tools/fatcp.py:227-238 | a concrete volume on which removing a directory loses a file |
| FatSample.PuttingLoses | tools/fatcp.py:227-265 | on it, putting over that directory loses the file, with any attributes |
| FatSample.MakingSpoils | tools/fatcp.py:137-166 | on it, making a directory beside a file leaves no volume |
| FatSampleImage.SampleImage | tools/fatls.py:20-46 | the bytes of an image of six sectors that opens, satisfies the invariant and shows that volume |
| FatSampleImage.SampleHarmed | tools/fatcp.py:128-268 | so there is an image on which the tool carries out a removal, a put and a mkdir each of which leaves no volume with just its effect |
| FatSampleImage.SlackTaken | tools/fatput.py:131-134 | on it, two bytes count as already in a file that has one |
| FatPut.OverlayBytes | tools/fatput.py:146-151 | writing over the start of a chain gives the new bytes followed by what stood behind them |
| FatPut.Extents | tools/fatput.py:37-48 | the extents cover the first `size` bytes of the chain, cluster by cluster |
| FatPut.WriteExtents | tools/fatput.py:146-153 | writing them overlays the chain and touches no other byte of the image |
| FatPut.RewrittenKeeps | tools/fatput.py:146-156 | rewriting in place keeps the volume invariant |
| FatPut.RewrittenUpdates | tools/fatput.py:146-156 | it changes exactly one name, to exactly the new bytes |
| FatInPlace.ReadExtents | tools/fatput.py:51-56 | reading the extents gives the first bytes of the chain |
| FatInPlace.WriteSize | tools/fatput.py:90-95 | the 4-byte write changes the size in that one entry and nothing else |
| FatInPlace.FindNamed | tools/fatput.py:80-90 | finds the entry that the listing shows first under the name |
| FatInPlace.UpdateSize | tools/fatput.py:59-96 | the file found again by path gets the new size; nothing else changes |
| FatInPlace.Decide | tools/fatput.py:107-143 | the answer before anything is written: too big, too small, same, unconfirmed or rewrite |
| FatInPlace.SameMeans | tools/fatput.py:131-134 | when the tool says "already byte-identical", the file holds those bytes exactly if the lengths agree |
| FatInPlace.Put | tools/fatput.py:99-164 | the whole tool: the exact answer, nothing is written unless it says so, "same" is true exactly if the lengths agree; when it writes, only the file's own clusters and size change, it holds the new bytes, and the readback cannot fail |
| FatZeroFree.FreeIsInvisible | tools/zero_free_space.py:65-76 | writing anything to free clusters changes the meaning of no name |
| FatZeroFree.FreeClusters | tools/zero_free_space.py:37-46 | lists exactly the clusters inside the image whose entry is 0, also of an image that is cut short |
| FatZeroFree.ZeroFreeSpace | tools/zero_free_space.py:49-76 | afterwards exactly the free clusters are zero, the rest of the image is as it was, and every file reads as before |
| FatFloppy.Build | tools/mkfloppy.py:30-61 | builds an image that the reader opens as an empty FAT12 volume |
| FatFloppy.BlankVolume | tools/mkfloppy.py:30-61 | such an image satisfies the volume invariant with no file and no chain |
| FatFloppy.Filled | tools/mkfloppy.py:89 | the data written in one piece is the file's clusters one by one, the last padded with zeros |
| FatFloppy.ChainFirst | tools/mkfloppy.py:91-95 | the packed table written entry by entry is the table with the first clusters linked |
| FatFloppy.AddFile | tools/mkfloppy.py:76-116 | refuses exactly the empty file and one beyond the disk's capacity; else the floppy is a well-formed volume on which exactly that name holds exactly that data |
| FatFloppy.BuildAndRead | tools/mkfloppy.py:111-118 | every file from 1 byte to capacity is read back exactly, and no other is written |
| Planar.Display.Row16 | vxd-patches/fastdoom_i_ibm.c:396-403 | the 16-bit copy de-interleaves one row of a plane and advances both pointers by exactly that row |
| Planar.Display.Row32 | vxd-patches/fastdoom_i_ibm.c:424-431 | the 32-bit copy does the same |
| Planar.Display.Plane | vxd-patches/fastdoom_i_ibm.c:388-408 | one plane of the span, also where the step back is negative: every covered byte is right and no other byte changes |
| Planar.Display.UpdateBox | vxd-patches/fastdoom_i_ibm.c:364-438 | for every row and plane of the 8-aligned span, plane p%4 at p/4 is the screen's pixel; bytes outside are untouched |
| Planar.Display.RealBox | vxd-patches/fastdoom_i_ibm.c:497-536 | the joined box contains this box and the two before, and is empty only if all three are |
| Planar.Display.UpdateNoBlit | vxd-patches/fastdoom_i_ibm.c:490-572 | after copying only the joined box the current page shows exactly the screen |
| Planar.Display.WholeScreen | vxd-patches/fastdoom_i_ibm.c:489-536 | pages of any contents marked as lacking the whole screen are fit to start a run |
| Planar.Display.Flip | vxd-patches/fastdoom_i_ibm.c:489-551 | rotating three pages keeps track of what each still lacks |
| Planar.Display.Draw | vxd-patches/fastdoom_i_ibm.c:497-551 | drawing inside the dirty box keeps it true that the boxes cover all differences |
| Planar.Display.Run | vxd-patches/fastdoom_i_ibm.c:490-572 | over any number of frames, after every update the page on display is the screen |
| VxdStream.Sweep | vxd-patches/vxdstream.py:7-19 | yields the instruction stream, service calls as six bytes, undecodable bytes stepped over |
| VxdStream.StreamRises | vxd-patches/vxdstream.py:7-19 | instructions follow one another without overlapping |
| VxdStream.InsideIsNoStart | vxd-patches/vxdstream.py:56-66 | nothing inside an instruction is a start of one |
| VxdStream.EditsRewrite | vxd-patches/vxdstream.py:7-19 | from any point where they are in step, the edited bytes decode to the rewritten stream if and only if skipped bytes stay skipped |
| VxdStream.PatchRewrites | vxd-patches/patch_vdmad.py:58-65 | the same for a whole object: chosen instructions are replaced and every other one stays where it was |
| VxdStream.OnlyNearMatter | vxd-patches/vxdstream.py:7-19 | skipped bytes stay skipped if and only if those do that have an edit in the 15 bytes behind them |
| VxdStream.FarStaysSkipped | vxd-patches/vxdstream.py:7-19 | a stock object with no skipped byte so near an edit keeps them all skipped |
| VxdStream.SkippedByteWakes | vxd-patches/vxdstream.py:15-17 | a concrete object where replacing an instruction makes the undecodable byte before it decode, so that the stream is not the rewritten one |
| VxdPatch.SamePage | vxd-patches/vxdstream.py:35-38 | inside a page, bytes adjacent in the object are adjacent in the file |
| VxdPatch.TrueBoundaries | vxd-patches/vxdstream.py:40-51 | the table has an entry exactly at the file offsets where an instruction of some executable object starts |
| VxdPatch.VerifySites | vxd-patches/vxdstream.py:68-90 | a candidate is good exactly when it is a 2-byte IN or OUT on a true boundary; every other one is refused with the reason that applies |
| VxdPatch.InsideRefused | vxd-patches/vxdstream.py:79-85 | a candidate inside another instruction is always refused |
| VxdPatch.ProgramApart | vxd-patches/patch_vdmad.py:58-65 | edits of whole instructions never overlap in the file |
| VxdPatch.ProgramRewritten | vxd-patches/patch_vdmad.py:58-65 | each object's bytes in the edited file decode to its stream rewritten, if and only if skipped bytes stay skipped |
| VxdPatch.PatchedFile | vxd-patches/patch_vdmad.py:58-80 | the same with the patched file's own header, object table and page map read again |
| VxdPatch.FarPatched | vxd-patches/patch_vdmad.py:58-80 | the same from a condition on the stock file alone: no edit near a skipped byte |
| VxdPatch.PatchPorts | vxd-patches/patch_vdmad.py:42-88 | a run of either port script: all and only verified accesses are edited, nothing is written when there is none, and the post-check says what it should |
| VxdPatch.PostCheck | vxd-patches/patch_vdmad.py:83-88 | the check of changed bytes passes exactly when each edit changes both its bytes |
| VxdPatch.PortsDiffer | vxd-patches/patch_vpicd.py:33-56 | for ports other than 00h and 90h, so for both scripts, it cannot fail |
| VxdPatch.SameTables | vxd-patches/vxdstream.py:21-38 | edits behind header, object table and page map leave the mapping as it was |
| VxdMaxPhys.LastPushes | vxd-patches/patch_vxd_dma_maxphys.py:46-49 | collects the pushes before a call, latest first |
| VxdMaxPhys.FindSites | vxd-patches/patch_vxd_dma_maxphys.py:43-64 | finds exactly the 32-bit pushes that give _PageAllocate too high a limit |
| VxdMaxPhys.WriteLimits | vxd-patches/patch_vxd_dma_maxphys.py:78-79 | changes exactly the operands of those pushes |
| VxdMaxPhys.Skeleton | vxd-patches/patch_vxd_dma_maxphys.py:78-92 | places, sizes and mnemonics of the whole stream stay; only operands at the sites differ |
| VxdMaxPhys.NothingLeft | vxd-patches/patch_vxd_dma_maxphys.py:32-65 | searching the result again finds nothing |
| VxdMaxFile.FindFileSites | vxd-patches/patch_vxd_dma_maxphys.py:32-65 | finds all and only the sites of all executable objects, by file offset |
| VxdMaxFile.LimitFile | vxd-patches/patch_vxd_dma_maxphys.py:67-92 | refuses exactly when there is no site; else edits exactly the sites, and the check of changed bytes cannot fail |
| VxdMaxFile.FileDone | vxd-patches/patch_vxd_dma_maxphys.py:67-93 | the written file, parsed again, has the same skeleton in every object and no site left |
| VxdMaxFile.FileDoneFar | vxd-patches/patch_vxd_dma_maxphys.py:67-93 | the same from a condition on the stock file alone |
| LeFixups.EncodedAt | tools/lefixups.py:50-103 | a record's bytes are where the format puts each field, for all widths and kinds |
| LeFixups.DecodeIsInverse | tools/lefixups.py:50-103 | the decoder yields a record, and stops behind it, exactly when that record's encoding stands there |
| LeFixups.PageIsInverse | tools/lefixups.py:42-103 | a page's records decode to a list and end where the page's range does exactly when they are that list encoded |
| LeFixups.DecodeRecord | tools/lefixups.py:51-103 | the cursor-moving body of the loop computes that decoder, with the target it names |
| LeFixups.DecodePage | tools/lefixups.py:50-103 | so does the loop over a page |
| LePages.OwnerIs | tools/lefixups.py:32-37 | a page belongs to the last object that claims it, at its place among that object's pages, and to none exactly if none does |
| LePages.OwnPage | tools/lefixups.py:32-37 | where objects share no page, page k of each object is that object's, at offset k pages |
| LePages.Owners | tools/lefixups.py:32-37 | the loops fill the map with just those owners |
| LePages.ReportedIff | tools/lefixups.py:104-111 | a line is reported if and only if a fixup of the pages asked for has a source at that object and signed place, and it is the place asked for |
| LePages.PrintFixups | tools/lefixups.py:14-111 | the whole tool computes that report, in order |
| Irq2.ParseLists | vxd-patches/patch_vpicd_irq2.py:57-70 | returns the lists exactly when the block is their encoding, and fails otherwise |
| Irq2.ListsAreFixups | vxd-patches/patch_vpicd_irq2.py:73-78 | building list records is encoding them as fixups |
| Irq2.HoldsDecoded | vxd-patches/patch_vpicd_irq2.py:57-70 | on such a block the list parser and the general fixup decoder agree |
| Irq2.OneListing | vxd-patches/patch_vpicd_irq2.py:57-78 | a block holds at most one list of records |
| Irq2.MoveOneConserves | vxd-patches/patch_vpicd_irq2.py:95-100 | a move conserves the multiset of sources and the targets |
| Irq2.MoveAllConserves | vxd-patches/patch_vpicd_irq2.py:98-100 | so does any sequence of moves |
| Irq2.MovedBlock | vxd-patches/patch_vpicd_irq2.py:102-105 | the rebuilt block is as long as the old one and no count overflows |
| Irq2.CheckPasses | vxd-patches/patch_vpicd_irq2.py:107-110 | the final check passes exactly when each source stood once in the list it left |
| Irq2Patch.OwnCheck | vxd-patches/patch_vpicd_irq2.py:53-54 | the script's own moves pass that check exactly when each of its sources stood once in its list |
| Irq2Patch.CheckAndApply | vxd-patches/patch_vpicd_irq2.py:87-92 | checking each original just before replacing it succeeds exactly when all match, with all replacements made |
| Irq2Patch.Rewrite | vxd-patches/patch_vpicd_irq2.py:94-104 | parse, move and build give up exactly when the block is no list or a move is impossible |
| Irq2Patch.Finish | vxd-patches/patch_vpicd_irq2.py:94-110 | what both scripts share, from the bytes each of them parses, yields exactly the described patch |
| Irq2Patch.PatchStandalone | vxd-patches/patch_vpicd_irq2.py:81-110 | parses the bytes it has edited, and writes a file exactly when it is the described patch of a known image that matched everywhere |
| Irq2Patch.ViewSplice | vxd-patches/patch_vmm32_vpicd_irq2.py:48-51 | a write through the mapping is that write to the mapped view |
| Irq2Patch.PatchMonolith | vxd-patches/patch_vmm32_vpicd_irq2.py:53-74 | nothing is written unless every original byte and the fixup block matched |
| W3Directory.CalledIs | vxd-patches/patch_vmm32_vpicd_irq2.py:34 | a stripped directory name is VPICD exactly if its eight bytes are that and nothing but spaces and zeros |
| W3Directory.VpicdEntry | vxd-patches/patch_vmm32_vpicd_irq2.py:27-36 | returns where the first directory entry called VPICD leads, and gives up exactly when there is none or the directory is cut short before it |
| W3Directory.PatchVmm32 | vxd-patches/patch_vmm32_vpicd_irq2.py:39-78 | the whole script: writes a file exactly when it is the described patch at the place that directory and header lead to |
| Irq2Patch.MonolithIsStandalone | vxd-patches/patch_vmm32_vpicd_irq2.py:39-78 | patching inside the monolith, seen through the mapping, is patching the standalone image |
| Irq2Patch.StandaloneIsMonolith | vxd-patches/patch_vmm32_vpicd_irq2.py:39-78 | and whatever can be patched alone can be patched there, with that result |
| Irq2Patch.ScriptsAgree | vxd-patches/patch_vmm32_vpicd_irq2.py:39-78 | the standalone script writes a file exactly when the monolith script does, the input is one it knows and the lists' targets are the four it asks for, and then the same one through the mapping |
| Irq2Patch.RunBoth | vxd-patches/patch_vpicd_irq2.py:81-110 | so of the two programs, run one after the other |
| Irq2Patch.OthersUntouched | vxd-patches/patch_vmm32_vpicd_irq2.py:61-71 | the other drivers of the monolith keep their bytes |
| Acpi.WriteKeeps | 86box_full/src/acpi.c:1141-1239 | every byte write keeps each register inside its bits and BIOS_RLS set only with GBL_STS |
| Acpi.StatusWord | 86box_full/src/acpi.c:2114-2121 | a word written to PMSTS clears exactly the status bits written as one |
| Acpi.EnableWord | 86box_full/src/acpi.c:2114-2121 | PMEN then holds exactly the enables written |
| Acpi.ControlWord | 86box_full/src/acpi.c:2114-2121 | PMCNTRL holds what was written unless the machine suspends, and GBL_RLS raises BIOS_STS |
| Acpi.GlobalLong | 86box_full/src/acpi.c:2103-2112 | GLBCTL holds what was written, and BIOS_RLS raises GBL_STS |
| Acpi.Device.UpdateIrq | 86box_full/src/acpi.c:193-243 | the line is raised exactly when the SCI is enabled and some enabled event is up |
| Acpi.Device.Reset | 86box_full/src/acpi.c:2395-2480 | registers after a reset, with the line down and the invariant in force |
| Acpi.Device.WriteCommon | 86box_full/src/acpi.c:978-1067 | the shared registers, the reset nested in a suspend included, with the line as the registers say |
| Acpi.Device.WriteGlobal | 86box_full/src/acpi.c:1194-1206 | a byte of GLBCTL, with BIOS_RLS raising GBL_STS and the line following |
| Acpi.Device.WriteByte | 86box_full/src/acpi.c:1141-1239 | any byte write keeps the invariant and changes the registers as described |
| Acpi.Device.WriteWord | 86box_full/src/acpi.c:2114-2121 | so does a word write |
| Acpi.Device.WriteLong | 86box_full/src/acpi.c:2103-2112 | and a double-word write |
| Acpi.Device.TimerOverflow | 86box_full/src/acpi.c:128-135 | sets TMROF_STS and keeps the invariant |
| Acpi.Device.Resume | 86box_full/src/acpi.c:2232-2243 | sets the resume status, which is no interrupt source, and keeps the invariant |
| Acpi.Device.PowerButton | 86box_full/src/acpi.c:2323-2336 | sets PWRBTN_STS only if enabled, and keeps the invariant |
| Acpi.Device.ApmCommand | 86box_full/src/acpi.c:2338-2368 | an APM command sets its status without disturbing the line |
| Acpi.Device.RaiseSmi | 86box_full/src/acpi.c:245-271 | bit 16 of GLBCTL is clear afterwards exactly if it was clear or management interrupts are enabled; nothing else changes |
| Acpi.Device.Run | 86box_full/src/acpi.c:193-243 | after any sequence of events the line is raised exactly as the three registers say |
| Acpi.Device.SciAsRead | 86box_full/src/acpi.c:272-295 | the line agrees with what a guest reads except exactly when an enabled clock request is the only event |
| Nvr.YearLength | 86box_full/src/nvr.c:85-97 | the code's leap years are those of the Gregorian day count |
| Nvr.MonthLength | 86box_full/src/nvr.c:99-107 | the code's month lengths are those of the Gregorian day count |
| Nvr.DateUnique | 86box_full/src/nvr.c:109-130 | the second count determines the date |
| Nvr.TickIsASecond | 86box_full/src/nvr.c:109-130 | a tick leads from a valid date to the valid date one second later |
| Nvr.Clock.RtcTick | 86box_full/src/nvr.c:109-130 | the nested counters do that |
| Nvr.Clock.Ticks | 86box_full/src/nvr.c:109-130 | n ticks advance n seconds, for all n |
| Nvr.Clock.OnesecTimer | 86box_full/src/nvr.c:132-153 | the divider counts to a hundred and ticks only on machines that are not AT |
| Nvr.Clock.Callbacks | 86box_full/src/nvr.c:132-153 | N callbacks from divider k give (k+N)/100 ticks |
| LogFold.ParseText | tools/m8_fallback_tally.py:51 | the pattern recognises exactly the number the writer printed |
| LogFold.LinesAppend | tools/m8_fallback_tally.py:50 | a line appended to complete lines is read as one more line |
| LogFold.Log.Write | 86box_full/src/86box.c:407-435 | the file always accounts for every message but the repeats not yet printed |
| LogFold.Lines | tools/m8_fallback_tally.py:48-61 | the loop computes the expansion of the lines |
| LogFold.LogAndTally | 86box_full/src/86box.c:407-435 | logging any messages and tallying the file gives as many as the engine messages, less the last run's pending repeats, plus the spurious ones; and exactly the engine messages in order if and only if none is spurious; the pending repeats are of the last message, which stands at the end exactly that many times more |
| LogFold.SpuriousIff | tools/m8_fallback_tally.py:48-61 | none is, if and only if every message that reads like a count behind an engine message counts nothing and is not repeated before another message |
| LogFold.CountLookAlike | tools/m8_fallback_tally.py:51-56 | a concrete log: behind one engine message, a message that reads like the count n makes n of it |
| ImagePaths.Memrmem | 86box_full/src/config.c:1246-1259 | finds the last slash at or before the start position |
| ImagePaths.SaveImage | 86box_full/src/config.c:3650-3714 | which of the five forms is saved, behind the write-protect prefix, and that only 2047 characters of it are |
| ImagePaths.LoadImage | 86box_full/src/config.c:1261-1348 | what a saved text loads as, and that it is refused exactly when too long |
| ImagePaths.SaveThenLoad | 86box_full/src/config.c:1246-1348 | a normalised absolute path that fits survives saving and loading, up to letter case, exactly when it is not masked or the mask is the program's directory |
| ImagePaths.MaskedPath | 86box_full/src/config.c:1306-1312 | what a masked path is loaded as instead |
| ImagePaths.CutIsLost | 86box_full/src/config.c:3683-3702 | a path whose saved form is cut loads as another one |
| ImagePaths.LongPath | 86box_full/src/config.c:3683-3702 | a path of 2048 characters, which the program allows, loads without its last |
| ImagePaths.SaveAndLoad | 86box_full/src/config.c:3650-3714 | both routines one after the other, write protection included: when the path is refused, and that one not masked survives exactly when its saved form has at most 2047 characters |

## Left out

- FatSession.Session: ends at the first command that is carried out and not harmless, since the image then holds no volume with its effect; commands after it are left out.
- FatTool.CopyIn: on volumes that satisfy the invariant. How names compare is a parameter `up`, since upper-casing in code page 437 is not modelled; splitting the path into names is left out.
- FatTool.Resolve: a path that leads through a file to cluster numbers outside the volume, or round for ever, counts as `Beyond` (the tool stops with an error there, reads past the FAT, or does not end).
- FatVolume.FatRW.Chain: takes the chain as a proof witness; on a looping chain the tool would not end.
- FatRead.Read: on volumes that satisfy the invariant. On damaged ones the model says only what the reader computes (FatRead.List, FatRead.ReadEntry, FatTool.Resolve).
- FatZeroFree.ZeroFreeSpace: the checksums before and after are replaced by the statement that every file reads the same.
- FatFloppy.AddFile: on a blank floppy, as the tool says of itself.
- Planar.Display.UpdateBox: reads up to 8 bytes behind the last pixel at the right edge, as the C code does; the screen buffer is taken to be that much longer.
- Planar.Display.Flip: the page rotation lies outside the cited file; three disjoint pages used in turn are assumed.
- VxdStream.EditsRewrite: the disassembler is any function that satisfies `Sound`, not a model of x86.
- VxdPatch.PatchPorts: `Apart` and `Straight` are conditions on the input file that the scripts do not check.
- VxdMaxFile.LimitFile: the same two conditions; sites are a set, so the order of messages is not kept.
- LeFixups.DecodePage: source offsets are read as unsigned words, as in the format's encoding; LePages.LineOf signs them as the tool does.
- LePages.PrintFixups: the lines as values, not their text and not the heading of each page; a file that is too short yields nothing, where the tool prints the lines before it finds out.
- Irq2Patch.PatchStandalone: the MD5 check of its input is a parameter, any predicate on the input's bytes.
- W3Directory.PatchVmm32: header and pages of VPICD are taken to lie inside the file and apart, for a standalone image of a given size; the script does not check it.
- Acpi.Device.Run: Intel variant only; the choice of interrupt line (`irqMode`), which a chipset makes at start-up, stays as the constructor gets it. Delivery to the interrupt controller, timers in floating point, SMI delivery, power-off and suspend to the host are left out; the I/O base is 64-byte aligned.
- ImagePaths.SaveImage: path_normalize, path_abs and path_get_slash are not part of this model's sources; absoluteness is a parameter and normalising is the identity on the paths considered.
- ImagePaths.LoadImage: for a user directory of one character the C code looks one byte before the string; the model takes that as not found.
- LogFold.Log.Write: suppression stays on, and a message fits the buffer.
- LogFold.Lines: stripping and digits as Python has them for ASCII characters.
- LogFold.LogAndTally: messages are of ASCII characters, with a newline at their end and nowhere else; switching suppression off while running, and messages longer than the buffer, are left out.
- File handles, seeking and flushing, subprocess calls, MD5, argument parsing and printing: an image is an array of bytes and an error a result.
- ACPI registers of the other vendors, NVR file handling and weekday computation, the rest of 86box.c and config.c.
- Hardware probes, port censuses and disassembly front ends, FastDoom's graphics set-up, input and timers.
- `make_fat16_img.py` and `mkfatimg.py`: image generators that the tools above do not depend on.
