# A verified model of libpurple's buddy list and its neighbours

libpurple keeps every group, contact, buddy and chat in one tree of nodes that are linked by
hand-written pointer surgery. Beside the tree it keeps counters, two hash tables of buddies, a hash
table of groups and a cached "top" buddy per contact, and every operation updates all of them by
hand. This project models that code on a real heap of `Node` objects and proves that all these
views of the list agree before and after every operation. Around it stand five smaller models: the
circular buffer, the option scanner of finch, the account list of finch and its edit dialog, the
authorization requests, and saving and loading the buddy list.

How to read it:

* `BuddyTree` has the nodes and the pointer surgery; `BuddyCounts`, `BuddyIndex` and
  `BuddyPriority` have the counters, the tables and the ranking. `BuddyState.ViewOf` is the abstract
  value of a list: the children of every node, the group each buddy is filed under, and which nodes
  exist. Methods say what the new view is as a function of the old one.
* `BuddyValid.Sound` is the invariant that every operation asks for and keeps, on every run (but for a
  call of `BuddyApi.AddBuddy` that frees the contact it is to put the buddy into): pointers,
  levels, counters and priority cache agree with that tree, every account with a buddy has its table,
  and every entry of a table leads to a listed buddy or group that has this key. `BuddyValid.Order` says
  what more there is: whether all buddies have names, and whether the table of groups and that of
  buddies find everything that is listed (2) or not (1). Each operation says what it does to that
  order. `BuddyValid.Valid` is `Sound` with all of it.
* A buddy can come online while its account is still connecting. Some operations then leave the
  counter `online` of a contact or group off by one. The ghost map `drift` says for each contact and
  group by how much, so that `Sound` speaks about every run; `Exact(drift)` says that nothing is
  off, and each operation says exactly when it stays that way.
* The size of a group is not corrected when one of its contacts is destroyed. The ghost field
  `destroyed` of a group counts these; each operation says by how many it grows for which group, and
  its `modifies` clause that it does not change for any other.
* The functions that give the new view are described once more by what they do to the sequences of
  children and by what the counters say (`BuddyLaws`), and in the same way the plain scan of a command
  line by the written options (`GetoptWords`) and loading by the list that was saved (`SaveLoadLaws`).
* `BuddyExamples` runs the operations on small lists for which the code does not do what it should.

## Model

| member | source | states |
|---|---|---|
| BuddyTree.BuddyList.Unlink | source/libpurple/blist.c:2145-2151 | cutting a node out of its siblings gives exactly the list without it; it may itself stand next to one node that was cut out earlier and still has its old pointers |
| BuddyRemove.RemoveBuddy | source/libpurple/blist.c:2128-2205 | the view loses that buddy, and its contact too if it was the last one; the tables lose exactly its key, the group counts one destroyed contact more exactly if the contact goes, and the drift is the one given |
| BuddyRemove.PassedByBuddy | source/libpurple/blist.c:2153-2159 | where no counter is too small, none is after a buddy was removed, and the counters are exact then if and only if they were and the buddy was not early, also when the contact goes with it and its group keeps counting it |
| BuddyEdit.DeleteBuddy | source/libpurple/blist.c:2128-2205 | every buddy can be removed from every sound list, twins included; the table loses exactly its key and finds no less of the others, counters stay exact exactly if the buddy was not early, and the surplus in the size of its group grows by one exactly if it was the last of its contact |
| BuddyEdit.DeleteContact | source/libpurple/blist.c:2079-2126 | a contact goes with all its buddies and nothing else, and the size of its group is one too large for it; the table loses exactly their keys; counters stay exact exactly if none of them was early |
| BuddyLaws.BuddyGoes | source/libpurple/blist.c:2145-2151 | said of the children themselves: the buddy is taken out of those of its contact, or the contact out of those of its group if it was the last, and nothing else changes |
| BuddyLaws.ContactCounts | source/libpurple/blist.h:156-158 | with exact counters, those of a contact are the number of its buddies, of those whose account is connected, and of those that are online |
| BuddyLaws.GroupCounts | source/libpurple/blist.h:170-172 | those of a group are the number of its chats of connected accounts and its contacts with a buddy that has one, or that is online |
| BuddyValid.SizeIs | source/libpurple/blist.c:1625 | in every sound list the size of a group is the number of its children plus that of the contacts destroyed in it, so it is right exactly if no operation has destroyed one |
| BuddyAdd.PlaceBuddy | source/libpurple/blist.c:1613-1717 | leaving one contact and joining another comes to lifting the buddy out of the tree and putting it in; table, drift and destroyed contacts are given, and a table that finds every buddy goes on doing so if and only if no other buddy has the same account, name and group |
| BuddyAdd.ExactlyPlaced | source/libpurple/blist.c:1613-1681 | a placed buddy leaves exact counters exact if and only if it is not early or stays in its contact |
| BuddyIndex.LookupIsSearch | source/libpurple/blist.c:2432-2472 | a lookup in the table finds a buddy if and only if that buddy is in the tree with that account, name and group |
| BuddyApi.AddBuddy | source/libpurple/blist.c:1571-1717 | all ways to say where a buddy goes: no change, behind another buddy, in front in a contact, or in a new contact; in each case the view, table, drift and destroyed contacts, and whether all buddies can be found afterwards, which is exactly if there is no twin; `broken` says exactly if the target contact was freed on the way |
| BuddyLaws.BuddyComes | source/libpurple/blist.c:1632-1676 | said of the children themselves: the buddy stands right behind its neighbour or in front, it is gone from where it was, with the contact if it was alone in that, and nothing else changes |
| BuddyApi.AddContact | source/libpurple/blist.c:1832-1977 | the contact moves as a block; buddies whose key the table has for the new group already are removed, the others are filed anew; the contact itself is freed exactly if it had buddies and all of them were such; with the tables in order these are exactly the twins, and all stays in order |
| BuddyContacts.MoveContact | source/libpurple/blist.c:1859-1977 | the same for a given place and every sound list: view, table, destroyed contacts, and counters that stay exact exactly if none of the removed buddies was early |
| BuddyContacts.RefusedIs | source/libpurple/blist.c:1870-1923 | when the tables are in order, the buddies that are refused, the table being changed on the way, are those that have a twin in the new group at the start |
| BuddyLaws.ContactComes | source/libpurple/blist.c:1859-1960 | said of the children themselves: the contact stands right behind its neighbour or in front, with its buddies in order but for those refused; if all of them are, it is gone from its group |
| BuddyApi.AddChat | source/libpurple/blist.c:1486-1569 | a chat moves beside the given node or to the front of a group, which is created if need be |
| BuddyLaws.ChatComes | source/libpurple/blist.c:1512-1556 | the chat stands right behind its neighbour or in front and is gone from where it was, and nothing else changes |
| BuddyTop.AddGroup | source/libpurple/blist.c:2013-2077 | a group is created or moved, and the table of groups follows |
| BuddyLaws.GroupComes | source/libpurple/blist.c:2030-2061 | the group stands right behind the given one or in front; a new one is empty, and nothing else changes |
| BuddyTop.RemoveGroup | source/libpurple/blist.c:2252-2300 | an empty group goes, another one stays, and nothing else changes |
| BuddyTop.FindGroupIsSearch | source/libpurple/blist.c:2515-2528 | the table of groups finds a group if and only if it is listed and its name has that collation key |
| BuddyMerge.MergeContact | source/libpurple/blist.c:1979-2011 | for every input: the buddies of the source stand in order at the given place of the target, the source is gone and its group counts it as destroyed; the table is given as a map; a table that finds every buddy goes on doing so exactly if the groups are the same or no name is taken twice; counters stay exact exactly if none of the buddies was early |
| BuddyLaws.ContactsMerge | source/libpurple/blist.c:1979-2011 | the buddies of the source stand together and in order right behind the buddy that was given, or behind all others, the source is gone from its group, and nothing else changes |
| BuddyMerge.RenameBuddy | source/libpurple/blist.c:975-1010 | the tree does not change, the table does as given; all buddies are found afterwards if and only if the new name is free in that group, and all have names if and only if it is not empty |
| BuddyRename.RenameGroup | source/libpurple/blist.c:1190-1271 | no change, simple rename or merge; a merge appends all children of the group to the other one in order, without the buddies that are `lost`, and removes the group; it reads a freed contact exactly if one of the contacts has buddies and all of them are lost; with the tables in order, the lost ones are those with a twin over there; a simple rename keeps the table of groups in order exactly if no other group is filed under the new name |
| BuddyLaws.GroupsMerge | source/libpurple/blist.c:1214-1247 | the children of the merged group follow those of the other one in order, their contacts with the buddies that are not lost, the group is gone, and nothing else changes |
| BuddyRename.TableRenamed | source/libpurple/blist.c:1262-1271 | filing a group under a new key keeps the table of groups right exactly if the key was not that of another group |
| BuddyConnect.Connect | source/libpurple/blist.c:2669-2709 | for every sound list, also with twins and early buddies: the counters follow the connection, and the view and the tables do not change |
| BuddyConnect.Disconnect | source/libpurple/blist.c:2711-2794 | for every sound list and whatever the ranks of the buddies of the account become: the counters and the priority cache follow, exactly the listed buddies of the account go offline, and the tables do not change |
| BuddyConnect.UpdateStatus | source/libpurple/blist.c:901-952 | for every sound list and account state: the counters and the priority cache follow one presence |
| BuddyConnect.CountsFlipped | source/libpurple/blist.c:2676-2694 | if buddies of one contact are seen differently, updating that contact and its group makes all counters right |
| BuddyPriority.Ranking.BestIsBest | source/libpurple/blist.c:682-723 | the loop's choice is the only buddy that is connected if any is, ranks highest among those, and is the last or first of equals as the preference says |
| BuddyFind.GetPriority | source/libpurple/blist.c:2302-2310 | for every sound list, over the ranks themselves: whether cached or computed, the answer is a connected buddy above which, by the tie rule, no other connected one stands, or the first buddy if none is connected |
| BuddyFind.Promote | source/libpurple/blist.c:901-952 | a connected buddy whose presence gets better than those of all its siblings becomes the answer, whatever was cached |
| BuddyFind.FindBuddy | source/libpurple/blist.c:2432-2456 | for every sound list: the search over all groups finds nothing exactly if the table leads to no buddy of that account and name, and else the one in the first group that has one |
| BuddyFind.FindBuddyInGroup | source/libpurple/blist.c:2458-2472 | finds the only buddy of that name in the group to which the table leads |
| BuddyFind.FindBuddies | source/libpurple/blist.c:2482-2513 | exactly the buddies of that name to which the table leads, those of later groups first |
| BuddyFind.AllAreKnown | source/libpurple/blist.c:2432-2513 | in a list without lost entries these are all listed buddies of that account and name |
| BuddyWalk.Walk | source/libpurple/blist.c:836-863 | following `purple_blist_node_next` from the root visits the preorder of the tree, or what of it is to be shown without offline nodes |
| BuddyWalk.VisitsOnce | source/libpurple/blist.c:836-848 | no node is visited twice |
| BuddyWalk.VisitsAll | source/libpurple/blist.c:836-848 | a node is visited if and only if it is in the list |
| BuddyWalk.ParentFirst | source/libpurple/blist.c:836-848 | every node is visited after its parent |
| BuddyWalk.ElderFirst | source/libpurple/blist.c:836-848 | a child and everything below it are visited before every later child of the same parent |
| BuddyPurge.DeleteAccount | source/libpurple/account.c:3047-3081 | for every sound list: the loops that remove nodes while they walk remove exactly the buddies and chats of the account and the contacts left without buddies; every group counts as many destroyed contacts more as it had contacts with buddies of this account only; the table of the account goes, the others find no less, and the counters stay exact exactly if no buddy of the account was online |
| BuddyPurge.NoLosses | source/libpurple/account.c:3047-3081 | the size of a group keeps its relation to the number of children exactly if each of its contacts that has buddies has one of another account |
| BuddyLaws.AccountGoes | source/libpurple/account.c:3047-3081 | said of the children themselves: the groups stand as before; of their children just the chats of other accounts stay and the contacts that had no buddies or have one of another account, and of the buddies just those of other accounts, all in order |
| BuddyExamples.EarlyBuddyDeleted | source/libpurple/blist.c:2153-2159 | after one early buddy was deleted, a group without children counts one that is online |
| BuddyExamples.SizeIsLeft | source/libpurple/blist.c:1625 | after the only buddy of a group was deleted, the group has no children and the size one |
| BuddyExamples.TwinAdded | source/libpurple/blist.c:1688-1702 | a buddy moved into a group with one of the same name takes over the table entry of the other one |
| BuddyExamples.TwinDeleted | source/libpurple/blist.c:2175-2182 | after that, deleting either of the two removes the entry of both: the one left is in the list, and the table does not have its key |
| BuddyExamples.TwinMerged | source/libpurple/blist.c:2000-2010 | after two contacts of different groups were merged, the entry of the older buddy holds the newly arrived one |
| BuddyExamples.TwinRenamed | source/libpurple/blist.c:992-1000 | after a buddy got the name of a sibling, the entry of the sibling holds the renamed one |
| BuddyExamples.ContactFreed | source/libpurple/blist.c:1226-1235 | a merging rename of a group frees the contact whose child it reads next |
| BuddyExamples.ContactUndermined | source/libpurple/blist.c:1651-1676 | adding the only buddy of a contact to that contact once more, with a group as neighbour, frees the contact first |
| BuddyExamples.CaseChanged | source/libpurple/blist.c:1209-1271 | renaming "A" to "a" next to a group "a" leaves two groups of that name |
| CircBuffer.CircBuffer.Append | source/libpurple/circbuffer.c:91-121 | the queue grows by exactly the bytes given, unless the buffer was drained at its very end and has to grow: then, and only then, the layout is wrong afterwards, and which bytes are offered instead is stated |
| CircBuffer.CircBuffer.Grow | source/libpurple/circbuffer.c:44-89 | the new size, the unchanged queue, and where the fill pointer lands from each layout |
| CircBuffer.GrownSteps | source/libpurple/circbuffer.c:51-52 | the buffer grows by the smallest number of whole steps that makes enough room |
| CircBuffer.CircBuffer.MaxReadIsContiguous | source/libpurple/circbuffer.c:123-136 | what is offered for reading is the longest prefix of the queue that lies in one piece, and empty exactly if the queue is |
| CircBuffer.CircBuffer.MarkRead | source/libpurple/circbuffer.c:138-149 | exactly the lengths up to that are accepted, and that many bytes leave the queue |
| CircBuffer.DrainedGrowthExample | source/libpurple/circbuffer.c:44-89 | 256 bytes in and out and then 300 bytes in: the last 44 of them are offered first |
| Getopt.Run | source/finch/getopt.c:320-651 | calling the scanner until it is done reports, for every command line, exactly the options, arguments and mistakes that the command line means as it is written (`GetoptWords.IsRead`), and leaves the options with their arguments before all operands, each in their order, and `optind` at the first operand |
| GetoptWords.ScanIsRead | source/finch/getopt.c:448-646 | the plain scan gives what the written line means and nothing else: option characters with no, one or two colons behind them in the option string, alone, in clusters, with arguments attached or separate, long options with or without `=`, abbreviated or not, missing arguments, unknown options, and operands between |
| GetoptWords.LineReads | source/finch/getopt.c:448-646 | whatever is written in these forms is read back as just those options, arguments and operands, with the value of a long option returned or stored |
| GetoptWords.Readable | source/finch/getopt.c:320-651 | every command line is written in these forms |
| GetoptWords.ConfigDirectory | source/finch/finch.c:295 | with the option string of finch, `-c` takes the next element as its argument |
| Getopt.Scanner.Next | source/finch/getopt.c:320-651 | each call keeps the invariant that relates what was reported and permuted so far to the plain scan |
| Getopt.Scanner.Permuted | source/finch/getopt.c:242-261 | at every moment the arguments are a permutation of the original ones |
| GetoptScan.Grammar.LookupIs | source/finch/getopt.c:448-480 | the first exact match wins; without one a long option is found exactly if it is the only one so abbreviated, and ambiguous exactly if there are two |
| GetoptScan.Grammar.MergeAll | source/finch/getopt.c:320-651 | the options and the operands of a scan shuffled together give the command line back |
| Accounts.PressedIs | source/finch/gntaccount.c:746-761 | a key moves the account by exactly one position, around the end, and no other account |
| Accounts.KeysAreInverse | source/finch/gntaccount.c:746-761 | one key undoes the other |
| Accounts.FullCircle | source/finch/gntaccount.c:746-761 | as many presses as there are accounts give the list back |
| Accounts.AccountList.Reorder | source/libpurple/account.c:3137-3167 | for every index: what stood before the position asked for stands before the account afterwards, what stood there or later behind it, and the others keep their order; a bad index or an unknown account changes nothing |
| Accounts.DroppedOnItself | source/pidgin/gtkaccount.c:1865-1889 | an account that is dropped right before or behind itself stays where it is |
| UserSplits.RoundTrip | source/finch/gntaccount.c:333-366 | a username put together from the fields of the dialog comes apart into the same fields if and only if no field that is looked for from the back has its separator, and nothing before a field that is looked for from the front does |
| UserSplits.SeparatorInField | source/finch/gntaccount.c:333-366 | a field with its own separator in it, looked for from the back, comes back without what stands before the last separator, and the username gets that |
| UserSplits.SplitUsername | source/finch/gntaccount.c:333-366 | the loop from the last field to the first takes the name apart: each field is cut off at its last or first separator, as it says, and one whose separator is not in what is left shows its default, if any |
| UserSplits.JoinUsername | source/finch/gntaccount.c:124-155 | the loop over the fields puts each behind its separator as it was typed, an empty one as its default, and an empty name is refused |
| UserSplits.EmptyIsDefault | source/finch/gntaccount.c:145-150 | leaving a field empty gives the same name as typing its default |
| UserSplits.SplitIs | source/finch/gntaccount.c:333-366 | for every name there are the texts that are left after each cut, each with the field that was cut off |
| Authorization.Requests.Request | source/libpurple/account.c:1507-1578 | a request is kept exactly if no plugin decided and the user did not answer at once; every answer is given once, and nothing is freed twice |
| Authorization.Requests.AnswerLater | source/libpurple/account.c:1474-1504 | an answer takes the request off the list and frees it once |
| Authorization.Requests.Close | source/libpurple/account.c:1456-1472 | exactly the requests with that handle are closed and freed once, although the loop removes from the list it walks; the others stay in their order |
| Authorization.Requests.CloseWithAccount | source/libpurple/account.c:1437-1453 | the same for the requests of an account |
| SaveLoad.Env.RoundTrip | source/libpurple/blist.c:134-674 | for groups whose names differ, loading what was saved gives the pruned list |
| SaveLoadLaws.ComesBackWhole | source/libpurple/blist.c:134-674 | a list comes back exactly as it was if every node is to be saved, every account is known, every buddy has a name and every contact a buddy, no text or component is empty or missing, and the names of the groups differ |
| SaveLoadLaws.Survives | source/libpurple/blist.c:134-674 | said of the two lists: just the groups, contacts, chats and buddies come back that are to be saved and have a known account and name or a buddy that does, in order, each with its account, name, alias, components and settings but for empty texts |
| SaveLoadLaws.FileWritten | source/libpurple/blist.c:134-300 | the elements, attributes and data that are written for a group, a contact, a buddy, a chat and settings |
| SaveLoadLaws.OldFile | source/libpurple/blist.c:439-606 | every file means the same with `person` for `contact`, `protocol` for `proto` and no type for texts |
| SaveLoadLaws.GroupGoesLast | source/libpurple/blist.c:579-590 | the group of an element comes last; one that exists keeps its name and its children in front |
| SaveLoadLaws.GroupInTwo | source/libpurple/blist.c:579-604 | a group that comes in two elements is loaded as if it came in one |
| SaveLoad.Env.SecondRound | source/libpurple/blist.c:134-368 | saving and loading once more changes nothing if and only if no chat that was saved has an empty component, and a third time never does |
| SaveLoad.Env.EmptyComponent | source/libpurple/blist.c:167-182 | a chat with an empty component: it comes back without a value and then not at all |

## Findings

Inputs for which the code does not do what its callers can expect. For each, the condition under
which all is well is part of a contract, for all inputs, and one run shows the failure.

* **Drained growth.** `purple_circ_buffer_append` sets `outptr` back to the start when it grows a
  buffer in which the read position was at the very end, but leaves `inptr` where the old end was.
  Fails exactly on a drained buffer with the fill pointer at its end that has to grow
  (`CircBuffer.CircBuffer.Append`, `CircBuffer.DrainedGrowthExample`).
* **Early presences.** A protocol may report the status of buddies while its account is still
  connecting (`source/libpurple/prpl.c:260`), and `purple_blist_update_buddy_status` counts them.
  Removing or moving such a buddy does not take it out of the counter again, because
  `PURPLE_BUDDY_IS_ONLINE` asks for a connected account. When the contact disappears, its group
  keeps the surplus for good (`BuddyEdit.DeleteBuddy`, `BuddyAdd.ExactlyPlaced`,
  `BuddyApi.AddContact`, `BuddyMerge.MergeContact`, `BuddyPurge.DeleteAccount`,
  `BuddyExamples.EarlyBuddyDeleted`). Connecting, disconnecting and further reports are fine.
* **Twins.** `purple_blist_add_buddy`, `purple_blist_merge_contact` and `purple_blist_rename_buddy`
  do not look whether the group already has a buddy of that account and name, and overwrite its
  entry in both tables; the older one cannot be found any more, and removing either removes the
  entry of both (`BuddyAdd.PlaceBuddy`, `BuddyMerge.MergeContact`, `BuddyMerge.RenameBuddy`,
  `BuddyExamples.TwinAdded`, `BuddyExamples.TwinMerged`, `BuddyExamples.TwinRenamed`; for the removal
  `BuddyEdit.DeleteBuddy` and `BuddyExamples.TwinDeleted`).
* **Renaming a group to a name that differs in case.** The comparison that is to allow a change of
  case also lets through another group whose name differs from the old one in case only; its entry
  in the table of groups is overwritten (`BuddyRename.RenameGroup`, `BuddyExamples.CaseChanged`).
* **Merging groups frees a contact and reads it.** When every buddy of a contact exists in the other
  group already, `purple_blist_add_contact` frees the contact, and `purple_blist_rename_group` then
  reads its `child` (`source/libpurple/blist.c:1230`; `BuddyRename.RenameGroup`,
  `BuddyExamples.ContactFreed`).
* **Adding a buddy to a contact it is alone in.** With a neighbour that is no buddy, the contact is
  emptied and freed before the buddy is put into it (`BuddyApi.AddBuddy`,
  `BuddyExamples.ContactUndermined`).
* **Empty chat components.** They are written as elements without data, read back as missing values,
  and not written any more the next time (`SaveLoad.Env.SecondRound`, `SaveLoad.Env.EmptyComponent`).
* **Fields that do not come back.** A username whose fields contain a separator in the wrong place
  comes apart differently in the edit dialog (`UserSplits.RoundTrip`, `UserSplits.SeparatorInField`).
* **Size of groups.** The comment at `source/libpurple/blist.c:1625` leaves the group's `totalsize` to
  the removal of the contact, which does not adjust it (`source/libpurple/blist.c:2079-2126`). Every
  contact that an operation destroys leaves the size of its group one too large for good, and nothing
  else does (`BuddyValid.SizeIs`, with the clauses on `destroyed` of `BuddyEdit.DeleteBuddy`,
  `BuddyEdit.DeleteContact`, `BuddyApi.AddBuddy`, `BuddyApi.AddContact`, `BuddyMerge.MergeContact`,
  `BuddyRename.RenameGroup` and `BuddyPurge.DeleteAccount`; `BuddyExamples.SizeIsLeft`).

## Left out

- User interface operations, signals, notification of protocol plugins and saving after each change.
- Strings are sequences of characters; normalising a name and computing a collation key are
  uninterpreted functions, so that nothing depends on a locale. A rename is modelled for names that
  are valid text; stripping unprintable characters is left out.
- Presences are compared by a rank, that is by a total preorder. The original comparison, with its
  penalty for idle time, is not transitive for every choice of status scores; for those the loop over
  the buddies has no best element to find, and nothing is claimed.
- The preference that decides between equal presences is constant, and ranks change only through
  `BuddyConnect.UpdateStatus` and `BuddyConnect.Disconnect`. The code keeps a cached priority buddy when that preference
  (`source/libpurple/blist.c:714`) or the status scores (`source/libpurple/status.c:1647`) change, so
  that the cache is stale until something else invalidates it.
- Operations are called with nodes that are in the list or were just created; removing a contact or a
  buddy that was never added, and `purple_blist_add_contact` for a new contact other than on behalf of
  a new buddy or of the loader, are not modelled.
- The repeated unlinking and counting code is one method each (`Unlink`, `Detach`, `Attach`), so that
  the order of an unlinking and a counter update within one operation can differ from the original.
- BuddyRename.RenameGroup: says nothing about the counters when it stopped at a freed contact, because what
  the code does after reading it is not modelled; the contract says exactly when it comes to that.
- BuddyApi.AddBuddy: likewise says nothing more about a list in which the target contact was freed first.
- BuddyApi.AddChat: does not cover a neighbour that is a group, whose missing parent the code reads
  (`source/libpurple/blist.c:1542`), or a buddy, beside which the chat would become a child of a contact.
- BuddyApi.AddContact: does not cover a given group that is not in the list. The code does not add it, as it
  does for a buddy or a chat, so that the contact ends under a group that cannot be reached.
- BuddyTop.AddGroup: supposes that a group of that name is found exactly if the given one is in the list, as
  does every group that `BuddyApi.AddBuddy` and `BuddyApi.AddChat` are given. `BuddyTop.GroupIsFiled` proves it for the
  groups of every list whose tables are in order, and `BuddyEdit.GroupNew` for what `purple_group_new` gives.
- SaveLoad.Env.RoundTrip: supposes that the groups have different names, as in every valid list.
- `getopt`: `long_only`, an option string that starts with `+` or `-`, error messages, and calls after the end.
  Storing through `flag` is an event, not a write.
- SaveLoad works on values: `Load` is not tied to the operations on the heap list. Privacy lists, the
  old protocol name "prpl-oscar", groups with an empty name, and XML syntax as such are left out.
- Authorization: user interface handles of requests that are shown are assumed to differ; the callbacks are events.
- Accounts: enabling, removing and destroying an account beyond its part of the buddy list, and saving.
- Circular buffer: sizes are unbounded integers.
