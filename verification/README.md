# SkillBot core, modelled in Dafny

SkillBot is a Discord bot that runs a tutoring server. Teachers get a category with a `cmd` channel. Each of their students gets a private text channel in that category. A small SQLite store keeps real names, icons, user types, teacher–student connections and time spent in the classroom voice channel. Archived student channels are moved into "📚 Wissensbereich" categories of at most 50 channels.

This project models the sequential core under the command and event glue:

- the naming helpers: nicks, the channel slug, and the member lookup;
- the lookups and reply builders of the environment module;
- both iterations of the store (`db.py` and the later `database.py`);
- the archive-bucket allocator and the channel sorter;
- the weekly integrity audit;
- the student and teacher lifecycle operations, in their current and earlier iterations;
- the rename commands and the voice-channel listener.

## How the model is built

- **The guild.** A guild is the class `Platform.Guild`. It holds roles, members, categories and channels as sequences in the order they were created (guild-list order); discord.py's sorting by position is not modelled, see "## Left out".
  - Every remote call is a method that updates that state.
  - Every method appends a `Call` to `calls`, so the order of an operation's effects is part of its postcondition.
- **Member values.** A `Member` passed to an operation is the value the command received. discord.py's `Member.edit` does not change that value, so a later `display_name` still reads the old nick.
- **Channel names.** Discord stores a text channel under a normalised name: lower case, spaces replaced by `-`. `Platform.PlatformChannelName` models this. It is assumed equal to the slug of `generate_student_channel_name`, and `Members.PlatformNameIsSlug` states the equality.
- **Tables.** Store tables are maps, with the uniqueness constraints of the schemas as class invariants (`Valid()`). Each store is a class whose methods change the maps.
- **Record objects.** `DBUser`, `User`, `Teacher`, `Student` and `TeacherStudentConnection` are classes whose fields `load`, `edit` and `setattr` overwrite.
- **Failures.** A raised `CodeError`, `UsageError`, `ValueError`, `MissingRole` or `IntegrityError` is the `Err`/`Failed` side of `Wrappers.Result`/`Wrappers.Outcome`. Only the effects made before the raise remain.

## Model

Functions and predicates without an `ensures` of their own are specification functions. The lemma and method rows that cite the same lines state their properties:
- Members.StudentNick and Members.TeacherNick: Members.NickRoundTrip, Members.NicksDistinct.
- Sorting.Key, Sorting.SortByKey and Sorting.TargetOrder: Sorting.SortByKeyCorrect, Sorting.TargetOrderCorrect.
- Archive.Usable: Archive.FirstUsable. Archive.CanAdd: Archive.CanAddKeepsCapacity, Archive.AsWrittenRefusedWhenFull, Archive.CorrectedFallsBack, Archive.AddChannel.
- Integrity.OrphanIssues: Integrity.OrphanIssuesExact, Integrity.CheckOrphanedSubusers. Integrity.ReportLines: Integrity.ReportLineCount, Integrity.BuildReport. Integrity.CheckFailure: Integrity.FailureNotesSplit, Integrity.CheckGuildIntegrity. Integrity.SummaryNotes: Integrity.AlertIffIssues, Integrity.SuccessIffClean.
- Environment.IsStudent, Environment.IsTeacher and Environment.IsAdmin: Environment.HoldsNamedRole. Environment.NameText (`str` of the stored real name): MemberCog.RenameMember.

| member | source | states |
|---|---|---|
| Members.NameByNick | src/Utils/members.py:14-15 | the name is the nick without its first two characters, and empty for a nick of at most two characters |
| Members.NickRoundTrip | src/Utils/members.py:6-15 | a nick is the student (or teacher) nick of a name iff it starts with that icon and a space and `get_name_by_nick` gives the name back |
| Members.NicksDistinct | Utils/members.py:6-11 | a student nick never equals a teacher nick |
| Members.StudentChannelName | src/Utils/members.py:18-19 | the slug is as long as the name and contains no space and no upper-case letter |
| Members.PlatformNameIsSlug | src/Utils/environment.py:192-202 | the name Discord stores a text channel under is the slug of the requested name |
| Members.SlugIdempotent | src/Utils/members.py:18-19 | slugging a slug changes nothing |
| Members.SlugEqualIff | src/Utils/members.py:18-19 | two names have the same slug iff they have the same length and agree at every position up to letter case and space versus `-` |
| Members.GetMemberByUser | src/Utils/members.py:22-29 | a Member is returned unchanged; a plain user resolves iff a guild member has its id, to that member; otherwise `CodeError("User is not a member")` |
| Msg.ErrorPrefix | src/Utils/msg.py:4-5 | the prefix is one of the two marks |
| Msg.ErrorMsg | src/Utils/msg.py:4-5 | the text is the prefix, " Fehler: ", the message and a space; without an error it is exactly that, with one the rest is the error text inside two code fences |
| Msg.ErrorMsgMark | src/Utils/msg.py:4-5 | the developer mark opens the text iff the error is a `CodeError`, and the cross otherwise |
| Msg.SuccessMsg | src/Utils/msg.py:8-9 | the text is the check mark, a space and the message, which can be read back |
| Msg.SuccessIsNotError | src/Utils/msg.py:4-9 | no success text equals an error text |
| LegacyMsg.ErrorPrefix | Utils/msg.py:1-2 | the prefix is one of the two marks |
| LegacyMsg.ErrorMsg | Utils/msg.py:1-2 | prefix, " Fehler: ", the message and a space; without an error exactly that, with one the rest is the error text inside two code fences |
| LegacyMsg.ErrorMsgMark | Utils/msg.py:1-2 | the developer mark opens the text iff `code_issue`, whatever the error |
| LegacyMsg.PrefixIgnoresErrorKind | Utils/msg.py:1-2 | two errors of different kinds give texts that agree up to the error block |
| RootUtils.ErrorMsg | utils.py:1-2 | the developer mark iff `code_issue`, the cross iff not, followed by exactly " Fehler: " and the message, with no error block |
| Channels.GetChannelByName | src/Utils/channels.py:6-10 | the first text channel of that name in guild order; `CodeError` iff there is none |
| Channels.GetCategoryByName | src/Utils/channels.py:13-17 | the first category of that name; `CodeError` iff there is none |
| Roles.GetRoleByName | src/Utils/roles.py:12-16 | the first role of that name; `ValueError` iff there is none |
| Roles.GetTeacherRole | src/Utils/roles.py:4-5 | a role named "Lehrer", or `ValueError` iff none exists |
| Roles.GetStudentRole | src/Utils/roles.py:8-9 | a role named "Schüler", or `ValueError` iff none exists |
| Roles.RoleHeldIff | src/Utils/roles.py:12-16 | the lookup succeeds iff the role exists, and then yields the first role of that name |
| Environment.UnwrappedGetRole | src/Utils/environment.py:12-15 | the first role of that name; `CodeError(name + " not found")` iff there is none |
| Environment.UnwrappedGetCategory | src/Utils/environment.py:12-15 | the first category of that name; `CodeError` iff there is none |
| Environment.GetArchiveCategory | src/Utils/environment.py:166-176 | the category "📚 Wissensbereich"; `CodeError` iff there is none |
| Environment.HoldsNamedRole | src/Utils/environment.py:71-146 | `is_student`/`is_teacher`/`is_admin`: `CodeError` iff the role is missing, otherwise whether the member holds the first role of that name |
| Environment.IsAssigned | src/Utils/environment.py:149-159 | with all three roles present: true iff the member holds the student, teacher or admin role; a student is assigned even when a later role is missing; errors are `CodeError`s |
| Environment.GetMember | src/Utils/environment.py:209-237 | a non-numeric id, an interaction without a guild and an absent member each give a `CodeError`; a result has the parsed id |
| Environment.GenerateMemberNick | src/Utils/environment.py:240-250 | icon and space then the real name; the teacher icon iff a teacher, the student icon iff a student but not a teacher, the wave otherwise; the name reads back |
| Environment.IsMemberArchived | src/Utils/environment.py:253-273 | true iff the member is a student whose stored channel exists and sits in the archive category; an error iff a role or, when the channel is found, the archive category is missing |
| Environment.FilterMembersForAutocomplete | src/Utils/environment.py:276-292 | no guild gives no choices; otherwise the first at most 25 matching non-bot members, in guild order, as (display name, id) choices |
| Environment.AutocompleteComplete | src/Utils/environment.py:276-292 | while fewer than 25 members match, every matching member is offered |
| Environment.AutocompleteValueResolves | src/Utils/environment.py:209-292 | the value of every offered choice resolves through `get_member` to a member with that id |
| Environment.FailureResponse | src/Utils/environment.py:312-330 | without an error: the cross, a space and the message; with an error: the text ends in the fenced error |
| Environment.FailureResponseMark | src/Utils/environment.py:324-326 | the developer mark opens the reply iff the error is a `CodeError` |
| Environment.FailureResponseShowsMsg | src/Utils/environment.py:324-328 | for a `CodeError` or no error the reply contains the message |
| Environment.FailureResponseDropsMsg | src/Utils/environment.py:329-330 | for any other error the reply does not depend on the message |
| Environment.HandleAppCommandError | src/Utils/environment.py:37-63 | logs iff in a guild and the error is neither `UsageError` nor `MissingRole`; a `UsageError` is shown verbatim after the cross; `MissingRole` names the role; other errors end in the fenced error |
| Db.Store.constructor | src/Utils/db.py:16-64 | the four tables start empty and satisfy the uniqueness invariants |
| Db.LoadUser | src/Utils/db.py:76-84 | an absent id loads with no real name and zero hours; a present one loads its row |
| Db.LoadTeacher | src/Utils/db.py:115-129 | the user row, and a teaching category iff a teachers row exists, which is then the row loaded |
| Db.LoadStudent | src/Utils/db.py:161-173 | the user row, and major and customer id from the students row, or none |
| Db.SaveStudentRow | src/Utils/db.py:175-186 | the students upsert fails iff another student holds the same customer id, with the UNIQUE error; otherwise it writes the row and keeps customer ids unique |
| Db.SaveConnection | src/Utils/db.py:217-226 | the upsert on (teacher, student) fails iff the channel is missing or already used by another pair; otherwise it writes the channel and keeps channels unique |
| Db.EditSetsRealName | src/Utils/db.py:104-107 | an edit naming `real_name` once leaves that value |
| Db.EditKeepsRealName | src/Utils/db.py:104-107 | an edit not naming `real_name` leaves it as it was |
| Db.User.constructor | src/Utils/db.py:72-84 | the object holds the loaded row |
| Db.User.Load | src/Utils/db.py:76-84 | the fields become the stored row or the defaults |
| Db.User.Save | src/Utils/db.py:86-96 | the row for the id becomes the object's fields; other tables unchanged |
| Db.User.Delete | src/Utils/db.py:98-102 | the row for the id is removed, and an absent row is no error |
| Db.User.SetAttr | src/Utils/db.py:104-107 | one keyword is applied to the fields |
| Db.User.Edit | src/Utils/db.py:104-107 | the keywords are applied in order and the result saved |
| Db.TeacherStudentConnection.constructor | src/Utils/db.py:203-215 | the channel is the stored one for the pair, or none |
| Db.TeacherStudentConnection.Load | src/Utils/db.py:209-215 | the channel is overwritten only when a row exists |
| Db.TeacherStudentConnection.Save | src/Utils/db.py:217-226 | the connections table becomes the upsert's result, or is unchanged when the upsert fails |
| Db.TeacherStudentConnection.SetChannel | src/Utils/db.py:228-230 | sets the channel and saves |
| Db.FindByStudent | src/Utils/db.py:232-240 | none iff no connection names the student; otherwise a stored connection of that student |
| Db.FindByTeacher | src/Utils/db.py:242-250 | none iff no connection names the teacher; otherwise a stored connection of that teacher |
| Db.Teacher.constructor | src/Utils/db.py:115-129 | the object holds `LoadTeacher` of the tables |
| Db.Teacher.Save | src/Utils/db.py:131-144 | the users row is written; the teachers row is written iff a teaching category is set, and the save fails otherwise |
| Db.Teacher.SetAttr | src/Utils/db.py:146-149 | one keyword is applied to the fields |
| Db.Teacher.Edit | src/Utils/db.py:146-149 | the keywords are applied in order, then both rows are saved as `Save` does |
| Db.Teacher.ConnectStudent | src/Utils/db.py:151-153 | the connection (teacher, student) gets the channel, as the upsert decides |
| Db.Student.constructor | src/Utils/db.py:161-173 | the object holds `LoadStudent` of the tables |
| Db.Student.Save | src/Utils/db.py:175-186 | the users row is written; the students row as the upsert decides |
| Db.Student.SetAttr | src/Utils/db.py:188-191 | one keyword is applied to the fields |
| Db.Student.Edit | src/Utils/db.py:188-191 | the keywords are applied in order and both rows saved |
| Db.Student.ConnectTeacher | src/Utils/db.py:193-195 | writes the same (teacher, student) row that `connect_student` writes |
| Db.LoadAfterSaveUser | src/Utils/db.py:76-96 | loading right after a save returns the saved row, and other ids are unaffected |
| Db.SaveConnectionThenLoad | src/Utils/db.py:209-226 | a saved connection is found again with its channel |
| Database.Store.constructor | src/Utils/database.py:13-44 | the three tables start empty and satisfy the type and uniqueness invariants |
| Database.Store.RemoveUser | src/Utils/database.py:54-56 | exactly the users row of that id is removed |
| Database.Store.AddVoiceJoin | src/Utils/database.py:70-72 | a join row (user, time) is added, or the primary key rejects a duplicate and nothing changes |
| Database.Store.RemoveVoiceJoins | src/Utils/database.py:74-76 | every join row of the user goes, and no other |
| Database.Store.TransferHours | src/Utils/database.py:82-99 | with a join row, the gained hours are added to a stored user and the user's join rows are deleted; without one nothing changes |
| Database.JoinsWithout | src/Utils/database.py:74-76 | exactly the rows of other users remain, with their channels |
| Database.LoadUser | src/Utils/database.py:107-120 | an absent id loads with no name, icon or type and zero hours |
| Database.SaveUser | src/Utils/database.py:122-131 | the upsert overwrites all four columns; it fails iff the type violates the CHECK, and it keeps all types valid |
| Database.SaveConnection | src/Utils/database.py:173-180 | one row per student: the upsert replaces teacher and channel; NOT NULL failures for a missing teacher or channel; channels stay unique |
| Database.LoadConnection | src/Utils/database.py:162-171 | the student's row, or no teacher and no channel |
| Database.SaveThenLoadConnection | src/Utils/database.py:162-180 | loading after a save returns what was saved, and other students are unaffected |
| Database.DBUser.constructor | src/Utils/database.py:103-105 | the object holds the loaded row |
| Database.DBUser.Load | src/Utils/database.py:107-120 | the fields become the stored row or the defaults |
| Database.DBUser.Save | src/Utils/database.py:122-131 | the users table becomes the upsert's result, or is unchanged when the CHECK fails |
| Database.DBUser.SetAttr | src/Utils/database.py:133-136 | one keyword is applied to the fields |
| Database.DBUser.Edit | src/Utils/database.py:133-136 | the keywords are applied in order and the result saved |
| Database.DBUser.TeacherId | src/Utils/database.py:138-142 | the connected teacher for a student, none for any other type |
| Database.TeacherStudentConnection.constructor | src/Utils/database.py:158-160 | the object holds the loaded connection |
| Database.TeacherStudentConnection.Load | src/Utils/database.py:162-171 | the fields become the stored row or none |
| Database.TeacherStudentConnection.Save | src/Utils/database.py:173-180 | the connections table becomes the upsert's result, or is unchanged on failure |
| Database.TeacherStudentConnection.SetAttr | src/Utils/database.py:182-185 | one keyword is applied to the fields |
| Database.TeacherStudentConnection.Edit | src/Utils/database.py:182-185 | the keywords are applied in order and the result saved |
| Database.TeacherStudentConnection.Remove | src/Utils/database.py:187-188 | only this student's row is deleted |
| Integrity.OrphanIssuesExact | src/cogs/DatabaseIntegrity.py:214-230 | exactly the subuser rows without a users row are reported, each as one "Orphaned Subusers" issue carrying both ids |
| Integrity.CheckOrphanedSubusers | src/cogs/DatabaseIntegrity.py:197-237 | as intended, with the query's rows given (as written the connection raises first, see "## Left out"): the loop yields the orphan issues in row order, each with a missing parent |
| Integrity.KindsInOrderFacts | src/cogs/DatabaseIntegrity.py:154-159 | the issue types are listed once each, exactly those that occur |
| Integrity.GroupSizesSum | src/cogs/DatabaseIntegrity.py:154-165 | the per-type counts add up to the number of issues |
| Integrity.GroupByType | src/cogs/DatabaseIntegrity.py:154-159 | the dict holds each type in first-appearance order with its issues in their original order |
| Integrity.ReportLineCount | src/cogs/DatabaseIntegrity.py:162-169 | the report has two head lines, then a header and a blank line per type and one line per issue |
| Integrity.BuildReport | src/cogs/DatabaseIntegrity.py:162-171 | the details are the report lines joined by newlines |
| Integrity.AppendSections | src/cogs/DatabaseIntegrity.py:165-169 | the loop appends each type's section in order |
| Integrity.CountsAddUp | src/cogs/DatabaseIntegrity.py:125-138 | checks run plus failed checks is the number of checks |
| Integrity.CheckGuildIntegrity | src/cogs/DatabaseIntegrity.py:100-195 | the issues of all returning checks in order, the two counters, one error notification per failed check, then the summary |
| Integrity.AlertIffIssues | src/cogs/DatabaseIntegrity.py:152-180 | an alert is sent iff an issue was found, carrying the total number of issues |
| Integrity.SuccessIffClean | src/cogs/DatabaseIntegrity.py:184-195 | a success notice iff no issues and no failed check; nothing iff no issues but some failure |
| Integrity.AllIssuesSplit | src/cogs/DatabaseIntegrity.py:125-149 | the issues of a run are those of its two halves, so a failing check hides no issue after it |
| Integrity.FailureNotesSplit | src/cogs/DatabaseIntegrity.py:137-149 | the error notifications of a run are those of its two halves, one per failed check in order |
| Integrity.WeeklyIntegrityCheck | src/cogs/DatabaseIntegrity.py:31-67 | nothing unless Saturday; otherwise every guild gets its own notifications, whatever happened to the others |
| Integrity.SweepGuild | src/cogs/DatabaseIntegrity.py:47-65 | the guild's own notifications, or a single error notice when its check raised |
| Integrity.AsWrittenCheckAlwaysFails | src/cogs/DatabaseIntegrity.py:110-149 | as written, the orphan check raises at the connection, so every guild gets exactly one "Integrity check '_check_orphaned_subusers' failed" notification and nothing else |
| Integrity.CorrectedCheckReports | src/cogs/DatabaseIntegrity.py:110-195 | with the query able to run, exactly one notification: an alert counting the orphans iff some subuser row has no parent user, the success notice otherwise |
| Archive.ArchiveStore.constructor | src/Utils/archive.py:80-83 | the store holds the given rows |
| Archive.ArchiveStore.Record | src/Utils/archive.py:148-149 | the row of that id gets the name, or a row is added |
| Archive.Recorded | src/Utils/archive.py:148-149 | the recorded row is present and every row of another id is kept |
| Archive.CandidateInjective | src/Utils/archive.py:86-91 | different counters give different names |
| Archive.GeneratedNameUnique | src/Utils/archive.py:85-91 | at most one name is the generated one for given rows |
| Archive.CounterBound | src/Utils/archive.py:85-93 | the counter never passes the number of stored names, so the loop ends |
| Archive.GenerateName | src/Utils/archive.py:60-93 | always succeeds, with the first pair's smallest free counter: a name not stored, so the final `CodeError` cannot be reached |
| Archive.FirstUsable | src/Utils/archive.py:116-120 | the first stored archive whose category exists with fewer than 50 channels; none iff no stored archive qualifies |
| Archive.CreateNewArchiveCategory | src/Utils/archive.py:126-150 | a generated name; an existing category of that name is returned with nothing changed; otherwise a category is created and recorded |
| Archive.MakeCalls | src/Utils/archive.py:96-150 | resolving the current archive makes at most one remote call, the category creation |
| Archive.MadeArchiveUnique | src/Utils/archive.py:96-150 | the archive `_get_current_archive` resolves to is determined by the stored rows and the guild |
| Archive.GetCurrentArchive | src/Utils/archive.py:96-123 | the first usable stored archive with nothing changed, or else the category of a fresh generated name: an existing one with nothing changed, or a new one created, recorded and announced by one create call; channels, roles and members are untouched |
| Archive.Make | src/Utils/archive.py:42-57 | the current archive, with the same effects on the guild, its calls and the stored rows as `_get_current_archive` |
| Archive.AllArchives | src/Utils/archive.py:153-169 | exactly the stored archives whose category still exists |
| Archive.AllArchivesSplit | src/Utils/archive.py:153-169 | the archives of two runs of rows are those of the first run followed by those of the second, so stored order is kept |
| Archive.AllArchivesSingle | src/Utils/archive.py:160-167 | one row gives its category when that still exists, and nothing otherwise |
| Archive.MovedCount | src/Utils/archive.py:184-200 | moving one channel into a category adds at most one to it, and exactly one when it was elsewhere |
| Archive.CanAddKeepsCapacity | src/Utils/archive.py:171-184 | a move `can_add` accepts leaves the category with at most 50 channels |
| Archive.AddChannelAsWritten | src/Utils/archive.py:186-200 | as written: the move into this category is always requested; Discord's refusal of a full category surfaces as the error, otherwise the channel is moved |
| Archive.AsWrittenRefusedWhenFull | src/Utils/archive.py:199-200 | for a category holding 50 channels and a channel outside it, `can_add` is false and the move that is requested anyway is refused |
| Archive.CorrectedFallsBack | src/Utils/archive.py:199-205 | the first usable stored archive can take any channel outside it, and Discord accepts that move |
| Archive.AddChannel | src/Utils/archive.py:186-208 | this category when it can take the channel, with one move call; otherwise the archive `_get_current_archive` resolves to, with its creation effects, and then that archive's id and one move call when it can take the channel, or `CodeError` with the channel left in place; a successful add never overfills |
| Sorting.IsAllowedCategory | src/Coordination/sorting.py:24-32 | sortable iff a teaching category or the archive category; the archive lookup's error otherwise |
| Sorting.SortByKeyCorrect | src/Coordination/sorting.py:44 | `sorted` is a permutation, ordered by lower-cased name, stable for equal keys |
| Sorting.FirstNamed | src/Coordination/sorting.py:46 | the first channel named `cmd`, or none iff there is none |
| Sorting.TargetOrderCorrect | src/Coordination/sorting.py:44-49 | the target is a permutation of the category's channels, `cmd` first when present, the rest in stable key order |
| Sorting.EditsExact | src/Coordination/sorting.py:54-59 | a channel is edited iff its position differs from its index, and only to that index |
| Sorting.RepositionedInvariant | src/Coordination/sorting.py:54-59 | after n steps the first n targets are at their indices and the rest untouched |
| Sorting.RepositionedAt | src/Coordination/sorting.py:54-59 | the channel named by the k-th target has position k once more than k steps have run |
| Sorting.FinalPositions | src/Coordination/sorting.py:54-59 | after the loop every target sits at its index |
| Sorting.PermutationKeepsIds | src/Coordination/sorting.py:44-49 | reordering keeps channel ids distinct |
| Sorting.SortedPositions | src/Coordination/sorting.py:34-59 | with distinct ids, each channel of the category ends at its target index |
| Sorting.SortChannelsInCategory | src/Coordination/sorting.py:34-59 | an archive lookup failure changes nothing; a category that is not sortable is not edited; otherwise exactly the position edits of the target order |
| Sorting.MoveToTargets | src/Coordination/sorting.py:54-59 | the edits of the target order in order, and the positions they set |
| StudentCoordination.AssignStudentGuard | src/Coordination/student.py:11-24 | the checks in source order: guild, caller member, teacher role, student not yet registered, teacher category |
| StudentCoordination.AssignStudentDatabase | src/Coordination/student.py:44-47 | the row gets the real name, the student icon and type "student" |
| StudentCoordination.AssignStudent | src/Coordination/student.py:10-41 | a failed check changes nothing; otherwise channel, role, nick and store in that order, and the welcome iff not silent |
| StudentCoordination.EnrolInGuild | src/Coordination/student.py:32-36 | the text channel under the raw name in the teacher's category, then the student role, then the student nick, with the new guild state |
| StudentCoordination.AssignedMemberState | src/Coordination/student.py:35-36 | the student holds the role and the student nick, from which the name reads back |
| StudentCoordination.AssignThenLookup | src/Coordination/student.py:32-68 | after assigning, the stored name is the given one and the lookup by its slug finds a channel |
| StudentCoordination.UnassignRolesGuard | src/Coordination/student.py:51-62 | guild, caller member, teacher role and student role checks, in source order |
| StudentCoordination.UnassignStudentGuard | src/Coordination/student.py:51-68 | those checks, then `CodeError` without a stored real name, then the channel named by its slug |
| StudentCoordination.UnassignStudentDatabase | src/Coordination/student.py:77-80 | icon and type are cleared and the real name kept |
| StudentCoordination.UnassignStudent | src/Coordination/student.py:50-74 | a failed check changes nothing; otherwise channel deleted, store edited, then role and nick removed |
| StudentCoordination.StripRoleAndNick | src/Coordination/student.py:73-74 | the role removed, then the nick cleared; channels, categories and roles untouched |
| StudentCoordination.WithdrawnKeepsName | src/Coordination/student.py:77-80 | unregistering keeps name and hours and clears the type, which the CHECK accepts |
| LegacyStudentCoordination.AssignStudent | Coordination/student.py:9-37 | a failed check changes nothing; otherwise channel, role, nick, and the welcome always |
| LegacyStudentCoordination.UnassignStudent | Coordination/student.py:40-61 | role and nick are removed first; the channel looked up by the display name minus two characters is deleted, or the operation fails after those edits |
| LegacyStudentCoordination.NormalisedDiffers | Coordination/student.py:31 | a name with a space or an upper-case letter is not its own normalised form |
| LegacyStudentCoordination.LookupMissesCreatedChannel | Coordination/student.py:31-61 | for such a name the lookup after an assignment fails |
| LegacyStudentCoordination.LookupMissesExample | Coordination/student.py:31-61 | "Max Muster" is not found again |
| TeacherCoordination.CmdIsNormalised | src/Coordination/teacher.py:30 | `cmd` is stored as `cmd` |
| TeacherCoordination.WithoutAll | src/Coordination/teacher.py:60-61 | exactly the channels whose ids are not deleted remain |
| TeacherCoordination.DeleteChannels | src/Coordination/teacher.py:60-61 | the channels go one by one, one delete call each in order |
| TeacherCoordination.DeleteCategoryWithChannels | src/Coordination/teacher.py:60-62 | the channels deleted in order, then the category, whose remaining channels lose their parent |
| TeacherCoordination.AssignTeacherGuard | src/Coordination/teacher.py:11-17 | `CodeError` without a guild; `ValueError` without the role; `UsageError` for a teacher already registered; otherwise the role |
| TeacherCoordination.AssignTeacherDatabase | src/Coordination/teacher.py:37-39 | the row gets the real name, the teacher icon and type "teacher" |
| TeacherCoordination.AssignTeacher | src/Coordination/teacher.py:10-34 | a failed check changes nothing; otherwise role, nick, category named by the nick, `cmd` channel, store, welcome, in that order |
| TeacherCoordination.OpenTeacherSpace | src/Coordination/teacher.py:21-30 | role, nick, a category of the given name and its `cmd` channel, in that order, with the ids they get |
| TeacherCoordination.UnassignTeacherLookup | src/Coordination/teacher.py:43-52 | succeeds iff in a guild and the member holds the teacher role and a category carries the display name |
| TeacherCoordination.CheckNoStudents | src/Coordination/teacher.py:53-55 | passes iff every text channel is `cmd`; otherwise the `UsageError` |
| TeacherCoordination.UnassignTeacherDatabase | src/Coordination/teacher.py:67-69 | icon and type cleared, the real name kept |
| TeacherCoordination.UnassignTeacher | src/Coordination/teacher.py:42-64 | a failed check or a remaining student changes nothing; otherwise role, nick, text channels, category and store, and the category and its text channels are gone |
| TeacherCoordination.TearDown | src/Coordination/teacher.py:57-64 | the effects in order and the resulting state |
| TeacherCoordination.AssignThenUnassignAllowed | src/Coordination/teacher.py:22-53 | a teacher just registered finds the new category and can be unregistered |
| LegacyTeacherCoordinator.CommonChecks | cogs/TeacherCoordinator.py:43-52 | the error replies for no guild, no member and no role; cleared iff all three exist, with the member and the first "Lehrer" role |
| LegacyTeacherCoordinator.AssignTeacher | cogs/TeacherCoordinator.py:42-76 | refusals change nothing; otherwise role, nick, category named by the old display name, `cmd`, welcome, in that order |
| LegacyTeacherCoordinator.UnassignTeacher | cogs/TeacherCoordinator.py:78-111 | refusals change nothing; a found category and all its channels are deleted, a missing one is noted in the reply; role and nick are removed either way |
| LegacyTeacherCoordinator.DropCategory | cogs/TeacherCoordinator.py:97-103 | a category of the name is deleted with its channels and nothing is noted; without one nothing changes and its absence is noted |
| LegacyTeacherCoordinator.UnassignMissesAssignedCategory | cogs/TeacherCoordinator.py:71-97 | when the old display name differs from the new nick, the lookup misses the category created at registration |
| LegacyTeacherCoordinator.UnassignMissesExample | cogs/TeacherCoordinator.py:71-97 | a member "max" registered as "Max" is not found again |
| MemberCog.Decide | src/cogs/MemberCog.py:34-72 | with the three roles present: self-rename iff own and admin; admin renames teacher; teacher renames student; otherwise forbidden; errors are `CodeError`s |
| MemberCog.SelfRenameNeedsAdmin | src/cogs/MemberCog.py:34-72 | a non-admin who is not both teacher and student may not rename themselves |
| MemberCog.SetRealName | src/cogs/MemberCog.py:37 | only the member's real name changes |
| MemberCog.RenameStudentChannel | src/cogs/MemberCog.py:62-69 | the connection's channel is renamed to the new slug when found; otherwise one log line, never a failure |
| MemberCog.RenameInPlace | src/cogs/MemberCog.py:37-38 | the real name, then the nick |
| MemberCog.RenameTeacher | src/cogs/MemberCog.py:44-50 | the category under the old nick, looked up first, is renamed to the new nick after the name and nick edits |
| MemberCog.RenameStudent | src/cogs/MemberCog.py:55-69 | only the student's own teacher gets past; then name, nick and channel |
| MemberCog.RenameMember | src/cogs/MemberCog.py:24-74 | the two `CodeError`s and the two `UsageError`s change nothing; each permitted branch makes its edits in order, and the reply carries the name held before them |
| SetupCog.SetupServer | src/cogs/SetupCog.py:27-41 | `UsageError` without guild or owner; `MissingRole` for anyone but the owner; success iff the caller owns the guild |
| SetupCog.UpdateRealnameGuard | src/cogs/SetupCog.py:63-79 | `UsageError` without a guild; renaming someone else needs a Member caller holding Admin or Lehrer; a self-rename always passes; the result is the student role |
| SetupCog.OtherUserCheck | src/cogs/SetupCog.py:66-76 | passes iff the caller is a Member, the Admin role exists, and the caller holds Admin or Lehrer |
| SetupCog.RenameChannelByNick | src/cogs/SetupCog.py:80-86 | a student with a nick has the channel named by the slug of the nick renamed when one exists; otherwise nothing |
| SetupCog.UpdateRealname | src/cogs/SetupCog.py:62-94 | a failed check changes nothing; otherwise channel rename when found, student nick, stored real name and reply, in that order |
| SetupCog.NickSlugDiffers | src/cogs/SetupCog.py:82-83 | the slug of a student nick is never the stored channel name |
| SetupCog.LookupMissesStudentChannel | src/cogs/SetupCog.py:82-86 | the lookup misses the student's channel |
| SetupCog.IntendedLookupName | src/cogs/SetupCog.py:82-83 | the intended lookup name, the slug of the name in the nick, has the nick's length minus two |
| SetupCog.IntendedLookupFinds | src/cogs/SetupCog.py:82-86 | the intended lookup finds the student's channel |
| Leveling.Classify | src/cogs/LevelingCog.py:29-32 | a join iff from no channel into "klassenzimmer", with its id; a leave iff out of "klassenzimmer" to another or no channel; the two exclude each other |
| Leveling.MoveIntoClassroomIgnored | src/cogs/LevelingCog.py:29-32 | a move from another channel into the classroom, or staying put, records nothing |
| Leveling.JoinThenLeave | src/cogs/LevelingCog.py:29-32 | a join followed by a leave leaves no join row of the member and every other row as it was |
| Leveling.OnVoiceStateUpdate | src/cogs/LevelingCog.py:19-32 | a join adds the row; a leave credits the hours and deletes the member's rows; anything else changes nothing |

## Left out

- The I/O is not modelled: async scheduling, `tasks.loop`, printing, logging, embeds and the notification manager. Notifications and log lines are values or `Guild.Log` calls.
- The SQL engine is left out. Tables are maps, and a committed statement is a map update.
- Permission overwrites are not modelled. They are arguments of the create calls and have no effect on the state modelled.
- `src/Coordination/setup.py` is not part of this model. `SetupCog.SetupServer` models only the checks of `setup_server` and its reply.
- `get_log_channel` and `send_safe_response` are left out. They only send.
- The `time` command of the leveling cog is left out. So are the per-command error handlers (`rename_member_error`, `setup_server_error`) beyond `Environment.HandleAppCommandError`.
- `UserVoiceChannelJoin` in src/Utils/db.py is left out. It is the hours arithmetic, with `datetime` parsing and float division.
- Database.Store.TransferHours: the hours gained are a parameter, not computed from the join time. `Database.Store.AddVoiceJoin` likewise takes the join time as a parameter, where the source uses SQLite's clock.
- StudentCoordination.AssignStudentDatabase: `DatabaseManager.add_student_teacher` is commented out in src/Utils/database.py. Its outcome is the parameter `link`, and no connection row is written. The same holds for `remove_student_teacher` in `StudentCoordination.UnassignStudentDatabase` (parameter `unlink`).
- MemberCog.RenameMember: `db_member.is_teacher` and `is_student` do not exist on `DBUser`, so as written `generate_member_nick` raises `AttributeError` at its first call: after the real-name edit in the admin and student branches, and at the category lookup, before any edit, in the teacher branch. The model takes them as the parameters `isTeacher` and `isStudent` and goes on with the nick edit.
- Sorting.IsAllowedCategory: `get_all_teaching_categories` is not defined in the files modelled. The stored teaching-category ids are a parameter.
- Archive.ArchiveStore.Record: the `Archive` table class is not defined in the files modelled. It is taken to be an ordered list of (category id, name) rows, where an edit renames an existing row or appends one.
- Sorting.SortChannelsInCategory: discord.py's reshuffle of the other channels after `edit(position=…)` is not modelled. Only the edited channel's position changes.
- Utils/channels.py and Utils/roles.py, used by the earlier iterations, are not part of this model. Those lookups are taken to be those of src/Utils.
- Platform.PlatformChannelName: Discord's normalisation of channel names is assumed to be the slug. The lower-casing covers ASCII and Latin-1 letters only.
- Members.StudentChannelName, Sorting.Key, Environment.FilterMembersForAutocomplete: `str.lower` is modelled for ASCII and Latin-1 letters only. Other scripts keep their case, so for Greek or Cyrillic names the student channel name, the sort order of a category and the autocomplete matches can differ from the source's.
- Integrity.CheckOrphanedSubusers: as written, `DatabaseManager._connect(guild.id)` at src/cogs/DatabaseIntegrity.py:210 raises `TypeError`, because `_connect` takes no parameter, and no schema in the modelled files creates a `subusers` table. The query loop is never reached. The model takes the query's rows as a parameter and models the loop as intended; Integrity.AsWrittenCheckAlwaysFails states what the sweep does as written (see "## Findings").
- Environment.GetMember: only ASCII `0`-`9` count as digits. `str.isdigit` also accepts other Unicode digits: for "١٢٣" the source looks up member 123, and for "²" `int()` raises `ValueError`; the model gives `CodeError` for both.
- Platform.FindTextChannelByName, Platform.CategoryChannels, Platform.CategoryTextChannels, Channels.GetChannelByName, Sorting.SortChannelsInCategory, TeacherCoordination.DeleteChannels, LegacyTeacherCoordinator.DropCategory: channels are taken in guild-list order. discord.py sorts `category.channels` by kind (text first) and position, and `text_channels` by position, so with equal names or positions the first match, the tie order of the sort and the order of the delete calls can differ from the source's.
- Remote calls never fail, except a move into a category that already holds 50 channels (`Platform.Guild.MoveChannel`), which Discord refuses.
- The emoji icons count as one character each. A multi-code-point icon such as "🗃️" is one `char` per code point, and the archive names use it as the source writes it.

## Findings

| source | as written | input that shows it | evidently intended | confidence | as-written member | corrected member |
|---|---|---|---|---|---|---|
| src/cogs/DatabaseIntegrity.py:210 | `DatabaseManager._connect(guild.id)` passes an argument to a static method that takes none (src/Utils/database.py:8), and no `subusers` table exists | any guild on a Saturday: the check raises `TypeError`, the guild gets one "Integrity check '_check_orphaned_subusers' failed" notification and never the success notice | connect without the argument to a database that has the `subusers` table, so the query's rows are reported | not executed | Integrity.AsWrittenCheckAlwaysFails | Integrity.CorrectedCheckReports |
| src/Utils/archive.py:199 | `self.can_add(channel)` is called without `await`, so the coroutine is always truthy and the move into this category is always requested | a category already holding 50 channels, a channel outside it and a stored archive with room: the move is requested anyway, Discord refuses it, `add_channel` raises the HTTP error and the fallback at lines 201-208 never runs | await `can_add`, and fall back to a fresh archive when this one cannot take the channel | not executed | Archive.AddChannelAsWritten | Archive.AddChannel |
| Coordination/student.py:60 | the channel is looked up by the raw real name taken from the nick, but it was created under that name and Discord stored it normalised | a student assigned as "Max Muster": the channel is stored as "max-muster", and "Max Muster" is looked up | look the channel up by the slug of the name, as the later iteration does | not executed | LegacyStudentCoordination.LookupMissesCreatedChannel | StudentCoordination.AssignThenLookup |
| cogs/TeacherCoordinator.py:97 | the category is created under the display name read before the nick edit, and looked up under the display name after it | a member "max" without a nick registered as "Max": category "max", later looked up as "🎓 Max" | name the category by the teacher nick, as the later iteration does | not executed; the gateway may refresh the member before line 71 | LegacyTeacherCoordinator.UnassignMissesAssignedCategory | TeacherCoordination.AssignThenUnassignAllowed |
| src/cogs/SetupCog.py:82 | the student channel is looked up by the slug of the whole nick, icon included, which never equals the stored channel name | a student "Anna" with nick "🎒 Anna": lookup "🎒-anna", channel "anna" | look up the slug of the name the nick carries | not executed | SetupCog.LookupMissesStudentChannel | SetupCog.IntendedLookupName |
