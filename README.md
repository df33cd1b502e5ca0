# Plenitude: a verified model of the meditation app's rules

Plenitude is a Next.js progressive web app for guided meditation backed by
Firebase. Most of it is React markup and SDK calls. Inside that plumbing sit
a number of small, deterministic rule sets, and this project models those
rules in Dafny and proves what they promise:

- the achievement calculator of the profile page;
- the reminder-settings editor;
- the favourites helpers;
- the audio player's state machine;
- the saved-meditations list;
- the home page's date string and "manna of the day" selection;
- the two admin CRUD forms, for meditations and for the daily manna;
- role resolution in the authentication context and the two route guards;
- sign-up validation;
- the four category listing pages.

Firestore is a class `Records.Firestore` holding the three collections the
app uses (`users`, `meditacoes`, and `mana_diario` as the field
`manaDiario`), each a map from document id to document. Every SDK read or write is a read or an assignment of one of
those maps. Whether a call into Firestore or Firebase Auth succeeds is a
boolean parameter of the handler (`storeOk`, `readOk`, `writeOk`,
`popupOk`, ...). The answer of a query is a parameter too, constrained by a
predicate that says what the query returns (`Home.QueryAnswers`,
`CategoryPages.QueryAnswers`, `Records.ListingOf`). The clock is an integer
parameter `now`. A page's React state becomes a class whose fields are the
`useState` variables, and each handler becomes a method that states the
whole new state. Pure helpers (filters, sorts, lookups, string building)
are functions, and what the source promises about them is proved as lemmas.

Module layout, one module per core file plus shared modules:

| module | file | models |
|---|---|---|
| `Wrappers` | wrappers.dfy | `Option`, `Result` |
| `Text` | text.dfy | decimal strings, `padStart`, ECMAScript `parseInt`, `||` on strings, ASCII `toLowerCase`, code-unit string order, the `full-date` string shape |
| `Sorting` | sorting.dfy | sub-lists, `Array.prototype.sort()` without a comparator (a stable sort by string form), lists without repetitions |
| `Records` | records.dfy | stored documents, the `Firestore` class, and the delete and edit-target logic both admin pages share |
| `Routes` | routes.dfy | the meditation and category paths and their split at `/` |
| `Profile` | profile.dfy | src/app/perfil/page.tsx |
| `Notifications` | notifications.dfy | src/app/configuracoes/notificacoes/page.tsx |
| `Favorites` | favorites.dfy | src/utils/favoritos-utils.ts |
| `AudioPlayer` | audio_player.dfy | src/components/AudioPlayer/AudioPlayer.tsx |
| `SavedMeditations` | saved_meditations.dfy | src/app/meditacoes-salvas/page.tsx |
| `Home` | home.dfy | src/app/page.tsx |
| `AdminMeditations` | admin_meditations.dfy | src/app/admin/meditacoes/page.tsx |
| `AdminMana` | admin_mana.dfy | src/app/admin/mana-diario/page.tsx |
| `Auth` | auth.dfy | src/contexts/AuthContext.tsx |
| `SignUp` | signup.dfy | src/app/cadastro/page.tsx |
| `Guards` | guards.dfy | src/components/ProtectedRoute.tsx, src/components/AdminProtectedRoute.tsx |
| `CategoryPages` | category_pages.dfy | src/app/meditacoes/{ansiedade,sono,foco,paz}/page.tsx |

The four category pages are the same file with a different category. They
differ only in the slug, the query value and the static titles and
descriptions, and they agree line for line. `CategoryPages` models them once,
with the category as a parameter. The rows below cite the ansiedade page;
the same lines of the sono, foco and paz pages say the same.

## Model

| member | source | states |
|---|---|---|
| `Profile.Select` | src/app/perfil/page.tsx:284-290 | the filtered list holds exactly the catalogue entries whose criterion has the asked value, in catalogue order |
| `Profile.Unlocked` | src/app/perfil/page.tsx:284-286 | exactly the catalogue entries whose criterion the journey meets, in catalogue order |
| `Profile.Locked` | src/app/perfil/page.tsx:288-289 | exactly the catalogue entries whose criterion the journey does not meet, in catalogue order |
| `Profile.Upcoming` | src/app/perfil/page.tsx:288-290 | the upcoming list has at most three entries and is a prefix of the locked ones |
| `Profile.SelectSplits` | src/app/perfil/page.tsx:284-290 | the met and unmet filters together have as many entries as the list |
| `Profile.UnlockedLockedPartition` | src/app/perfil/page.tsx:283-290 | each of the ten achievements is unlocked or locked and never both; both lists keep catalogue order |
| `Profile.UpcomingSize` | src/app/perfil/page.tsx:288-290 | the upcoming list has min(3, number locked) entries, and it is empty exactly when every criterion holds |
| `Profile.SelectMonotone` | src/app/perfil/page.tsx:196-279 | for a journey with at least the counters of another, every achievement met by the smaller one is met by the larger, in order |
| `Profile.UnlockedMonotone` | src/app/perfil/page.tsx:196-290 | more practice never locks an achievement again |
| `Profile.MeditationCountChain` | src/app/perfil/page.tsx:201-269 | cem-meditacoes implies trinta-meditacoes implies dez-meditacoes implies primeira-meditacao |
| `Profile.StreakChain` | src/app/perfil/page.tsx:209-261 | trinta-dias implies sete-dias implies tres-dias |
| `Profile.MinutesChain` | src/app/perfil/page.tsx:225-277 | vinte-horas implies cinco-horas implies hora-meditada |
| `Profile.SelectNoneMet` | src/app/perfil/page.tsx:284-290 | when no entry meets the asked value, its filter is empty and the opposite filter keeps them all |
| `Profile.CatalogueThresholdsPositive` | src/app/perfil/page.tsx:196-279 | every threshold of the catalogue is at least 1 |
| `Profile.ZeroJourneyAchievements` | src/app/perfil/page.tsx:168-174 | the all-zero journey unlocks nothing, and its upcoming list is primeira-meditacao, tres-dias, dez-meditacoes |
| `Profile.ExampleJourney` | src/app/perfil/page.tsx:201-225 | three days, one meditation and ten minutes unlock "Primeiro Passo" and "Consistência Inicial" but not "Uma Hora de Paz" |
| `Profile.AdoptSavedIcon` | src/app/perfil/page.tsx:72-75 | the stored icon is adopted only when it is one of the six offered icons, and then always |
| `Profile.SavedIconAllowList` | src/app/perfil/page.tsx:39-52 | on a fresh page a stored path is shown exactly when it is an offered icon |
| `Profile.LoadedJourney` | src/app/perfil/page.tsx:161-176 | the stored journey when there is one, otherwise all five counters zero |
| `Profile.UsersAfterLoad` | src/app/perfil/page.tsx:178-183 | only an existing document of that user is written, and only its journey, which becomes the default the page shows |
| `Profile.ProfilePage.constructor` | src/app/perfil/page.tsx:51-67 | the initial page state: placeholder icon, zero journey, loading, no achievements |
| `Profile.ProfilePage.LoadSavedIcon` | src/app/perfil/page.tsx:70-77 | the mount effect shows the stored icon only through the allow-list; nothing else changes |
| `Profile.ProfilePage.HandleIconSelect` | src/app/perfil/page.tsx:84-88 | the chosen icon is shown and stored, and the picker closes |
| `Profile.ProfilePage.CalcularConquistas` | src/app/perfil/page.tsx:283-294 | the unlocked and upcoming lists of the given journey are stored |
| `Profile.ProfilePage.LoadJourney` | src/app/perfil/page.tsx:152-188 | after a read the page shows the loaded journey, the default is written back only when the read and the write succeed, and loading ends on every path |
| `Profile.ProfilePage.CarregarDadosJornadaAsWritten` | src/app/perfil/page.tsx:152-190 | without a user nothing changes; with one the journey is read (the default journey written back to an existing document that lacks one), loading ends, and the achievements are computed from the journey the page held before loading; the icon state is kept |
| `Profile.ProfilePage.CarregarDadosJornada` | src/app/perfil/page.tsx:152-190 | the same new state as the page as written, except that the achievements are computed from the journey just loaded |
| `Profile.StaleAchievementsExample` | src/app/perfil/page.tsx:189 | a stored journey with one meditation shows no achievement on first load although primeira-meditacao is deserved |
| `Notifications.ToggleAtivo` | src/app/configuracoes/notificacoes/page.tsx:160-162 | the on/off flag flips and every other field is kept |
| `Notifications.ToggleTipoLembrete` | src/app/configuracoes/notificacoes/page.tsx:181-189 | exactly the chosen reminder type flips; the other three and every other field are kept |
| `Notifications.ToggleTwiceRestores` | src/app/configuracoes/notificacoes/page.tsx:160-189 | toggling the flag or a reminder type twice gives back the settings |
| `Notifications.RemoveAll` | src/app/configuracoes/notificacoes/page.tsx:169-172 | every occurrence of the day goes and every other day stays |
| `Notifications.RemoveAllKeepsSorted` | src/app/configuracoes/notificacoes/page.tsx:169-172 | removing a day keeps a sorted list sorted |
| `Notifications.RemoveAllDistinct` | src/app/configuracoes/notificacoes/page.tsx:169-172 | removing a day keeps a list without repetitions so |
| `Notifications.ToggleDay` | src/app/configuracoes/notificacoes/page.tsx:165-178 | the day's membership flips and no other day's changes; an added day joins a list sorted by string form |
| `Notifications.ToggleDiaSemana` | src/app/configuracoes/notificacoes/page.tsx:164-179 | only the weekdays change, and the day's membership flips |
| `Notifications.ToggleDayKeepsSorted` | src/app/configuracoes/notificacoes/page.tsx:176 | toggling keeps a list sorted by string form sorted |
| `Notifications.SingleDigitKeyOrder` | src/app/configuracoes/notificacoes/page.tsx:176 | for 0 to 9 the string order of the decimal forms is the numeric order |
| `Notifications.WeekdaysSortedAsNumbers` | src/app/configuracoes/notificacoes/page.tsx:176 | for weekdays 0 to 6 the default sort's order and numeric order coincide |
| `Notifications.ToggleWeekdayNumericOrder` | src/app/configuracoes/notificacoes/page.tsx:164-179 | toggling a weekday keeps a numerically sorted weekday list numerically sorted and repetition-free |
| `Notifications.WithTimeAdded` | src/app/configuracoes/notificacoes/page.tsx:205-208 | the new time list has one more entry, the old ones plus the draft, sorted |
| `Notifications.WithDraftAdded` | src/app/configuracoes/notificacoes/page.tsx:203-211 | an empty or already listed draft changes nothing; otherwise only the time list changes, to the sorted list with the draft |
| `Notifications.WithTimeAddedDistinct` | src/app/configuracoes/notificacoes/page.tsx:204-208 | an accepted draft introduces no repetition |
| `Notifications.UpdateTime` | src/app/configuracoes/notificacoes/page.tsx:191-195 | only position i changes, to the new value |
| `Notifications.UpdateTimeKeepsNeitherOrderNorUniqueness` | src/app/configuracoes/notificacoes/page.tsx:191-195 | an edit can leave the list unsorted or with a repeated time |
| `Notifications.RemoveTime` | src/app/configuracoes/notificacoes/page.tsx:197-201 | `splice(i, 1)`: an index in range removes only that entry, keeping the rest in order; a too-large index removes nothing; a negative one counts from the end |
| `Notifications.RemoveTimeKeepsOrder` | src/app/configuracoes/notificacoes/page.tsx:197-201 | removing a time keeps a sorted or repetition-free list so, and removes exactly one occurrence |
| `Notifications.UpdateLeadTime` | src/app/configuracoes/notificacoes/page.tsx:214-219 | the lead time is stored exactly when parseInt yields a number of at least 0; nothing else changes |
| `Notifications.LeadTimeAboveInputMaximum` | src/app/configuracoes/notificacoes/page.tsx:214-219 | "90" is accepted although the input's maximum is 60 |
| `Notifications.LeadTimeNegativeIgnored` | src/app/configuracoes/notificacoes/page.tsx:216 | "-5" leaves the settings as they are |
| `Notifications.LeadTimeEmptyIgnored` | src/app/configuracoes/notificacoes/page.tsx:215-216 | an empty field (parseInt gives NaN) leaves the settings as they are |
| `Notifications.LeadTimeFractionTruncated` | src/app/configuracoes/notificacoes/page.tsx:215 | "7.5" stores 7 |
| `Notifications.LoadedConfig` | src/app/configuracoes/notificacoes/page.tsx:98-104 | the stored settings when present, otherwise the defaults |
| `Notifications.UsersAfterSave` | src/app/configuracoes/notificacoes/page.tsx:128-142 | an existing document gets the settings and keeps every other field; a missing one is created with role "user"; no other document changes |
| `Notifications.SaveThenLoad` | src/app/configuracoes/notificacoes/page.tsx:98-142 | loading after a save gives back the saved settings |
| `Notifications.NotificationsPage.constructor` | src/app/configuracoes/notificacoes/page.tsx:80-86 | the defaults, loading, draft "08:00", add form closed |
| `Notifications.NotificationsPage.Carregar` | src/app/configuracoes/notificacoes/page.tsx:90-111 | no user: nothing changes; otherwise loading ends, and a successful read sets the loaded settings while a failed one keeps them |
| `Notifications.NotificationsPage.Salvar` | src/app/configuracoes/notificacoes/page.tsx:117-156 | no user: nothing changes; otherwise the store becomes the saved one and success is shown, or the store is kept and the error message set; saving ends |
| `Notifications.NotificationsPage.HandleToggleAtivo` | src/app/configuracoes/notificacoes/page.tsx:160-162 | the settings become the toggled ones; the rest of the page is kept |
| `Notifications.NotificationsPage.HandleToggleDiaSemana` | src/app/configuracoes/notificacoes/page.tsx:164-179 | the settings become those with the day toggled; the rest is kept |
| `Notifications.NotificationsPage.HandleToggleTipoLembrete` | src/app/configuracoes/notificacoes/page.tsx:181-189 | the settings become those with the type toggled; the rest is kept |
| `Notifications.NotificationsPage.AtualizarHorario` | src/app/configuracoes/notificacoes/page.tsx:191-195 | only the time at the index changes |
| `Notifications.NotificationsPage.RemoverHorario` | src/app/configuracoes/notificacoes/page.tsx:197-201 | the time list becomes the spliced one |
| `Notifications.NotificationsPage.AdicionarHorario` | src/app/configuracoes/notificacoes/page.tsx:203-212 | a rejected draft changes nothing; an accepted one joins the sorted list, the draft resets to "08:00" and the form closes |
| `Notifications.NotificationsPage.AtualizarAntecedencia` | src/app/configuracoes/notificacoes/page.tsx:214-219 | the settings become those with the lead time updated |
| `Notifications.NotificationsPage.SetNovoHorario` | src/app/configuracoes/notificacoes/page.tsx:85 | typing changes only the draft |
| `Notifications.NotificationsPage.SetShowAddHorario` | src/app/configuracoes/notificacoes/page.tsx:86 | opening or closing changes only the add form flag |
| `Favorites.ArrayUnion` | src/utils/favoritos-utils.ts:61-63 | `arrayUnion`: the element is present afterwards, every old element stays, nothing else is added, and the length grows only when the element was absent |
| `Favorites.Without` | src/utils/favoritos-utils.ts:98 | exactly the entries with another id remain, in their order |
| `Favorites.NewFavorite` | src/utils/favoritos-utils.ts:52-57 | `novoFavorito`: the meditation's id, title and category with the save instant; AddThenVerify and SecondAddDuplicatesId are what the store then holds |
| `Favorites.CreatedDoc` | src/utils/favoritos-utils.ts:66-72 | the created document lists only the new favourite, has role "user" and the creation instant, and no journey and no reminder settings |
| `Favorites.IsFavorite` | src/utils/favoritos-utils.ts:25-28 | the user's stored document lists an entry with that id; VerificarFavorito answers exactly this when the read succeeds |
| `Favorites.UsersAfterAdd` | src/utils/favoritos-utils.ts:52-73 | an existing document gains the favourite and keeps every other field; a missing one is created with displayName "", email "", role "user" and the one favourite |
| `Favorites.UsersAfterRemove` | src/utils/favoritos-utils.ts:93-101 | only that user's favourites change, to those with another id |
| `Favorites.VerificarFavorito` | src/utils/favoritos-utils.ts:20-36 | true exactly when the read succeeds and a stored favourite has the id |
| `Favorites.BuscarFavoritos` | src/utils/favoritos-utils.ts:117-132 | the stored favourites unchanged and in order, or the empty list for a missing document, missing field or failed read |
| `Favorites.AdicionarFavorito` | src/utils/favoritos-utils.ts:44-80 | success writes the added favourite, failure writes nothing |
| `Favorites.RemoverFavorito` | src/utils/favoritos-utils.ts:88-110 | true exactly when the read succeeds on an existing document, and then the favourites with that id are gone; otherwise nothing is written |
| `Favorites.AddThenVerify` | src/utils/favoritos-utils.ts:28-75 | after an add the meditation is a favourite, and everything that was a favourite still is |
| `Favorites.SecondAddDuplicatesId` | src/utils/favoritos-utils.ts:52-63 | a second add of the same meditation at another instant leaves two entries with that id |
| `Favorites.RemoveThenVerify` | src/utils/favoritos-utils.ts:93-101 | after a remove the meditation is no favourite, and the other favourites are kept |
| `Favorites.WithoutIdempotent` | src/utils/favoritos-utils.ts:98 | filtering twice gives what filtering once gives |
| `Favorites.RemoveIdempotent` | src/utils/favoritos-utils.ts:93-102 | a second remove writes the same store as the first |
| `AudioPlayer.FormatTimeShape` | src/components/AudioPlayer/AudioPlayer.tsx:21-28 | whole minutes, a colon, and the seconds as exactly two digits below 60, which together give back t |
| `AudioPlayer.FormatTime` | src/components/AudioPlayer/AudioPlayer.tsx:21-28 | the label ends in a colon and the seconds padded to two digits, 0 included; FormatTimeShape and FormatTimeInjective complete it |
| `AudioPlayer.FormatTimeInjective` | src/components/AudioPlayer/AudioPlayer.tsx:21-28 | two different times never show the same text |
| `AudioPlayer.Player.constructor` | src/components/AudioPlayer/AudioPlayer.tsx:13-18 | not playing, duration 0, position 0, volume 1, not muted, not loaded |
| `AudioPlayer.Player.TogglePlay` | src/components/AudioPlayer/AudioPlayer.tsx:31-40 | with an element the play flag flips either way; the element pauses, or plays only when `play()` succeeds; a player whose button matches the element still matches unless `play()` is rejected; without an element nothing changes |
| `AudioPlayer.Player.ToggleMute` | src/components/AudioPlayer/AudioPlayer.tsx:43-48 | with an element the mute flag and the element's muted flag flip together; the volume never changes |
| `AudioPlayer.Player.HandleTimeChange` | src/components/AudioPlayer/AudioPlayer.tsx:51-57 | the position shown and, with an element, the element's position take the new time |
| `AudioPlayer.Player.HandleVolumeChangeAsWritten` | src/components/AudioPlayer/AudioPlayer.tsx:60-67 | the volume is set and the mute flag becomes "volume is 0", while the element's muted flag is left as it was |
| `AudioPlayer.Player.HandleVolumeChange` | src/components/AudioPlayer/AudioPlayer.tsx:60-67 | as above, but the element's muted flag follows the mute flag, so shown and actual muting agree |
| `AudioPlayer.Player.SkipBackward` | src/components/AudioPlayer/AudioPlayer.tsx:70-74 | the element's position becomes max(t - 10, 0) |
| `AudioPlayer.Player.SkipForward` | src/components/AudioPlayer/AudioPlayer.tsx:77-81 | the element's position becomes min(t + 10, duration), which is 0 before the metadata is known |
| `AudioPlayer.Player.OnLoadedMetadata` | src/components/AudioPlayer/AudioPlayer.tsx:87-92 | the duration is the element's and the player is loaded, so the loading note is gone |
| `AudioPlayer.Player.OnTimeUpdate` | src/components/AudioPlayer/AudioPlayer.tsx:94-98 | the position shown copies the element's |
| `AudioPlayer.Player.OnEnded` | src/components/AudioPlayer/AudioPlayer.tsx:100-106 | the element has paused at the end, playing stops, both positions return to 0, and the button matches the element again |
| `AudioPlayer.TogglePlayTwice` | src/components/AudioPlayer/AudioPlayer.tsx:31-40 | two toggles restore the play flag, and keep the button in step with the element when `play()` succeeds |
| `AudioPlayer.PlayRejectedExample` | src/components/AudioPlayer/AudioPlayer.tsx:36-38 | a rejected `play()` leaves the button showing pause over a paused element |
| `AudioPlayer.MuteThenVolumeExample` | src/components/AudioPlayer/AudioPlayer.tsx:43-67 | muting and then raising the volume shows "unmuted" while the element stays muted |
| `AudioPlayer.MuteThenVolumeCorrected` | src/components/AudioPlayer/AudioPlayer.tsx:43-67 | with the corrected handler the same steps unmute both |
| `SavedMeditations.InsertNewest` | src/app/meditacoes-salvas/page.tsx:53-55 | inserting adds exactly the one element |
| `SavedMeditations.InsertNewestOrdered` | src/app/meditacoes-salvas/page.tsx:53-55 | inserting keeps a newest-first list newest first |
| `SavedMeditations.NewestFirst` | src/app/meditacoes-salvas/page.tsx:53-55 | the sorted list is a permutation of the fetched favourites, newest first |
| `SavedMeditations.NewestFirstKeepsOrderedList` | src/app/meditacoes-salvas/page.tsx:53-55 | an already ordered list is left as it is, ties included |
| `SavedMeditations.NewestFirstIdempotent` | src/app/meditacoes-salvas/page.tsx:53-55 | sorting twice gives what sorting once gives |
| `SavedMeditations.NewestFirstMembers` | src/app/meditacoes-salvas/page.tsx:50-57 | the list shows exactly the saved meditations |
| `SavedMeditations.CategoryLabel` | src/app/meditacoes-salvas/page.tsx:127 | the friendly name of a known slug, otherwise the slug itself |
| `SavedMeditations.CategoryLabelTellsKnownSlugs` | src/app/meditacoes-salvas/page.tsx:71-78 | a label differs from its slug exactly when the slug is one of the six |
| `SavedMeditations.View` | src/app/meditacoes-salvas/page.tsx:94-160 | spinner while loading, else the error, else the list when non-empty, else the empty notice |
| `SavedMeditations.LoadedFavorites` | src/app/meditacoes-salvas/page.tsx:42-58 | with a user and a successful read, the stored favourites as a permutation; always newest first; otherwise empty |
| `SavedMeditations.SavedPage.constructor` | src/app/meditacoes-salvas/page.tsx:36-38 | no favourites, loading, no error |
| `SavedMeditations.SavedPage.CarregarFavoritos` | src/app/meditacoes-salvas/page.tsx:42-65 | loading always ends; without a user nothing else changes; otherwise the stored favourites newest first and no error |
| `SavedMeditations.LoadedView` | src/app/meditacoes-salvas/page.tsx:42-160 | after a load the list is shown exactly when stored favourites exist, newest first and with the same members |
| `Home.GetFormattedDate` | src/app/page.tsx:70-75 | year, "-", the one-based month as two digits, "-", the day as two digits |
| `Home.FormattedDateFields` | src/app/page.tsx:72-74 | the year field is the unpadded decimal year, and month and day are exactly two digits with the month one-based |
| `Home.FormattedDateIsFullDate` | src/app/page.tsx:70-75 | for a four-digit year the result is ten characters in the full-date shape of section 5.6 of RFC 3339 |
| `Home.FormattedDateOrder` | src/app/page.tsx:70-75 | for four-digit years the strings are equal exactly for equal dates, and string order is calendar order |
| `Home.ShortYearExample` | src/app/page.tsx:72 | year 999 gives "999-01-01", nine characters |
| `Home.ResolveMana` | src/app/page.tsx:95-107 | the text defaults to "", the stored reference wins, then the extracted one, then ""; the commentary defaults to "" |
| `Home.ReferencePrecedence` | src/app/page.tsx:103-107 | the reference shown is the stored one, else the extracted one, else "" |
| `Home.StoredReferenceIgnoresExtraction` | src/app/page.tsx:103-107 | with a stored reference the extraction makes no difference |
| `Home.QueryEmptyIffNoEntry` | src/app/page.tsx:86-91 | the query for today answers with documents exactly when an entry for today is stored |
| `Home.HomePage.constructor` | src/app/page.tsx:66-67 | no manna yet, loading |
| `Home.HomePage.FetchManaDoDia` | src/app/page.tsx:78-117 | loading ends on every path; without a database nothing else changes; otherwise the first document of the answer is shown, and nothing exactly when no entry for today exists or the read fails |
| `Home.CategoryButtonRoutes` | src/app/page.tsx:122-185 | the six buttons route to "/meditacoes/" and the lower-cased name, giving the slugs that the saved-meditations labels know |
| `AdminMeditations.CategoriasAreSix` | src/app/admin/meditacoes/page.tsx:30-37 | six distinct categories, the first "Ansiedade" being the default |
| `AdminMeditations.FormOf` | src/app/admin/meditacoes/page.tsx:148-155 | the form shows the entry's four fields; an entry without a text gives a form that cannot be submitted |
| `AdminMeditations.Updated` | src/app/admin/meditacoes/page.tsx:105-113 | only that entry changes, its four fields become the form's, and its creation instant is kept |
| `AdminMeditations.Added` | src/app/admin/meditacoes/page.tsx:96-102 | exactly one entry is added, with the form's fields and the current instant |
| `Records.Deleted` | src/app/admin/meditacoes/page.tsx:136-137 | only that id is removed, and a missing id is no error; the daily-word page deletes the same way (src/app/admin/mana-diario/page.tsx at lines 132-133) |
| `AdminMeditations.EditUnchangedIsIdentity` | src/app/admin/meditacoes/page.tsx:105-113 | saving an edit without changes leaves the collection as it was |
| `AdminMeditations.DeleteIdempotent` | src/app/admin/meditacoes/page.tsx:132-146 | deleting twice is deleting once |
| `AdminMeditations.AddThenDelete` | src/app/admin/meditacoes/page.tsx:96-146 | deleting the entry just added restores the collection |
| `AdminMeditations.AdminMeditationsPage.constructor` | src/app/admin/meditacoes/page.tsx:40-48 | empty list, empty form with "Ansiedade", add mode, no messages |
| `AdminMeditations.AdminMeditationsPage.SetForm` | src/app/admin/meditacoes/page.tsx:179-217 | typing changes only the form |
| `AdminMeditations.AdminMeditationsPage.FetchMeditacoes` | src/app/admin/meditacoes/page.tsx:52-68 | a successful read lists every stored meditation once; a failed one keeps the list and sets the error; loading ends |
| `AdminMeditations.AdminMeditationsPage.HandleSubmit` | src/app/admin/meditacoes/page.tsx:86-130 | a missing field sets the required-fields error and writes nothing; otherwise a successful write updates the edited entry (with the update message) or adds one under the fresh id (with the addition message) and resets the form to add mode, and a failed one keeps the form and sets the error |
| `AdminMeditations.AdminMeditationsPage.Write` | src/app/admin/meditacoes/page.tsx:104-127 | success in edit mode (an edited entry with a non-empty id that still exists) stores `Updated`, otherwise `Added`, each with its message, then empties the form and leaves edit mode; failure, including an edited entry that no longer exists, changes only the error |
| `AdminMeditations.AdminMeditationsPage.HandleDelete` | src/app/admin/meditacoes/page.tsx:132-146 | a declined confirmation changes nothing; otherwise only that id goes, or the error is set |
| `AdminMeditations.AdminMeditationsPage.HandleEdit` | src/app/admin/meditacoes/page.tsx:148-157 | the entry's fields fill the form and edit mode starts |
| `AdminMeditations.AdminMeditationsPage.Cancel` | src/app/admin/meditacoes/page.tsx:238 | the empty add-mode form is restored |
| `AdminMeditations.EditAndSaveUnchanged` | src/app/admin/meditacoes/page.tsx:105-157 | editing an entry and saving it unchanged leaves the collection as it was and returns to add mode |
| `AdminMana.FormOf` | src/app/admin/mana-diario/page.tsx:145-151 | the form shows the entry's three fields; an entry without a text or commentary gives a form that cannot be submitted |
| `AdminMana.Updated` | src/app/admin/mana-diario/page.tsx:98-106 | only that entry changes, in its three fields; its creation instant and reference are kept |
| `AdminMana.Added` | src/app/admin/mana-diario/page.tsx:90-95 | exactly one entry is added, with the form's fields, the current instant and no reference |
| `AdminMana.EditUnchangedIsIdentity` | src/app/admin/mana-diario/page.tsx:98-106 | saving an edit without changes leaves the collection as it was |
| `AdminMana.AddAllowsSecondEntryForDay` | src/app/admin/mana-diario/page.tsx:90-95 | nothing rejects a second entry for a day that already has one |
| `AdminMana.ListingNewestDayFirst` | src/app/admin/mana-diario/page.tsx:46 | in the listing ordered by day string descending, an earlier position never holds an earlier day |
| `AdminMana.AdminManaPage.constructor` | src/app/admin/mana-diario/page.tsx:30-37 | empty list, empty form, add mode, no messages |
| `AdminMana.AdminManaPage.SetForm` | src/app/admin/mana-diario/page.tsx:176-199 | typing changes only the form |
| `AdminMana.AdminManaPage.FetchManaEntries` | src/app/admin/mana-diario/page.tsx:43-59 | a successful read lists every stored entry once, newest day first; a failed one keeps the list and sets the error; loading ends |
| `AdminMana.AdminManaPage.HandleSubmit` | src/app/admin/mana-diario/page.tsx:80-125 | a missing field sets the required-fields error and writes nothing; otherwise a successful write updates the edited entry or adds one under the fresh id, each with its message, and resets the form; a failed one keeps the form and sets the error |
| `AdminMana.AdminManaPage.Write` | src/app/admin/mana-diario/page.tsx:97-122 | success in edit mode stores `Updated`, otherwise `Added`, each with its message, then empties the form and leaves edit mode; failure, including an edited entry that no longer exists, changes only the error |
| `AdminMana.AdminManaPage.HandleDelete` | src/app/admin/mana-diario/page.tsx:128-142 | a declined confirmation changes nothing; otherwise only that id goes, or the error is set |
| `AdminMana.AdminManaPage.HandleEdit` | src/app/admin/mana-diario/page.tsx:145-153 | the entry's fields fill the form and edit mode starts |
| `AdminMana.AdminManaPage.Cancel` | src/app/admin/mana-diario/page.tsx:220 | the empty add-mode form is restored |
| `Auth.ResolveRole` | src/contexts/AuthContext.tsx:57-88 | no user: not admin and no role; missing document or failed read: "user"; stored "admin": admin; any other stored role is kept, with "user" for an empty or missing one |
| `Auth.AdminIffStoredAdminRole` | src/contexts/AuthContext.tsx:64-69 | admin exactly when a user is signed in, the read succeeds and the stored role is "admin" |
| `Auth.RoleStateConsistent` | src/contexts/AuthContext.tsx:64-88 | admin implies role "admin", and a role is present exactly when a user is |
| `Auth.ApplyProfileUpdate` | src/contexts/AuthContext.tsx:141-145 | the given name and photo replace the old ones; uid and email are kept |
| `Auth.AuthProvider.constructor` | src/contexts/AuthContext.tsx:44-47 | no user, loading, not admin, no role |
| `Auth.AuthProvider.Mount` | src/contexts/AuthContext.tsx:50-55 | with auth or the database missing, loading ends at once and nothing is subscribed |
| `Auth.AuthProvider.OnAuthStateChanged` | src/contexts/AuthContext.tsx:57-90 | the user and the resolved role are stored and loading ends, so children render |
| `Auth.AuthProvider.SignInWithGoogle` | src/contexts/AuthContext.tsx:96-115 | loading is true afterwards exactly when auth is configured, whether or not the popup succeeds |
| `Auth.AuthProvider.SignOut` | src/contexts/AuthContext.tsx:118-133 | loading stays true only after a successful sign-out; a failure resets it |
| `Auth.AuthProvider.UpdateUserProfile` | src/contexts/AuthContext.tsx:136-151 | without a current user it fails with the "no user" message; a provider failure is passed on; success stores the updated user |
| `Auth.SignOutThenListener` | src/contexts/AuthContext.tsx:84-133 | after a sign-out and its callback, no user, no admin, no role, and children render |
| `SignUp.ErrorMessage` | src/app/cadastro/page.tsx:59-72 | each of the three known codes has its own message |
| `SignUp.GenericMessageIffUnknownCode` | src/app/cadastro/page.tsx:59-72 | the generic message appears exactly for a missing or unknown code |
| `SignUp.ErrorMessageInjectiveOnKnownCodes` | src/app/cadastro/page.tsx:59-72 | different known codes give different messages |
| `SignUp.CadastroPage.constructor` | src/app/cadastro/page.tsx:11-15 | empty fields, no error, not loading |
| `SignUp.CadastroPage.HandleCadastro` | src/app/cadastro/page.tsx:18-76 | a short password is rejected before the configuration check and no account is attempted; an attempt always ends loading, and success sets the name and redirects to /login, failure sets the mapped message |
| `Guards.ProtectedView` | src/components/ProtectedRoute.tsx:31-40 | children exactly when not loading and signed in; otherwise "Carregando..." |
| `Guards.ProtectedRedirect` | src/components/ProtectedRoute.tsx:19-28 | a redirect to /login exactly when not loading and signed out |
| `Guards.AdminView` | src/components/AdminProtectedRoute.tsx:25-35 | children exactly when not loading, signed in and admin |
| `Guards.AdminRedirect` | src/components/AdminProtectedRoute.tsx:16-22 | a redirect to /login exactly when not loading and signed out or not admin |
| `Guards.GuardsRenderOrRedirect` | src/components/ProtectedRoute.tsx:19-40 | never a redirect while loading; once loaded each guard renders or redirects, never both |
| `Guards.AdminGuardStricter` | src/components/AdminProtectedRoute.tsx:16-35 | whatever the admin guard renders the plain guard renders, and whatever the plain guard redirects the admin guard redirects |
| `Guards.AdminPagesOpenOnlyForStoredAdmins` | src/components/AdminProtectedRoute.tsx:25 | with the role resolved by the auth context, admin pages render only for a user whose stored role is "admin" |
| `CategoryPages.StaticList` | src/app/meditacoes/ansiedade/page.tsx:20-45 | four static items with the category's ids 001 to 004 and its own titles and descriptions |
| `CategoryPages.StaticIdsDistinct` | src/app/meditacoes/ansiedade/page.tsx:20-45 | the static ids are distinct and start with the slug |
| `CategoryPages.Prefix` | src/app/meditacoes/ansiedade/page.tsx:72 | `substring(0, n)`: the first n characters, or all of a shorter text |
| `CategoryPages.DescriptionFallbackUnreachable` | src/app/meditacoes/ansiedade/page.tsx:72 | the fallback text is never chosen, and a missing text gives "undefined..." |
| `CategoryPages.Description` | src/app/meditacoes/ansiedade/page.tsx:72 | the first 100 characters and "...", or the fallback when there is no text |
| `CategoryPages.DescriptionAgreesWhenTextPresent` | src/app/meditacoes/ansiedade/page.tsx:72 | the written and the intended descriptions agree exactly when there is a text |
| `CategoryPages.DescriptionAsWritten` | src/app/meditacoes/ansiedade/page.tsx:72 | as line 72 evaluates: the first 100 characters and "...", or "undefined..." when there is no text |
| `CategoryPages.ItemsOf` | src/app/meditacoes/ansiedade/page.tsx:67-76 | one item per document, with the document id and title, the lower-case slug as category, and the description as line 72 evaluates it |
| `CategoryPages.ItemsOfCorrected` | src/app/meditacoes/ansiedade/page.tsx:67-76 | the same items, described with the intended description |
| `CategoryPages.FetchedDescriptions` | src/app/meditacoes/ansiedade/page.tsx:67-76 | as written a fetched meditation without a text reads "undefined..." and one with an empty text "..."; the corrected list shows the fallback for both and agrees with the page exactly on meditations with a text |
| `CategoryPages.FetchedLinksStayInCategory` | src/app/meditacoes/ansiedade/page.tsx:129 | each fetched item links to /meditacoes/, the slug and its id |
| `CategoryPages.View` | src/app/meditacoes/ansiedade/page.tsx:121-129 | the empty notice appears exactly when loading is over and the list is empty |
| `CategoryPages.CategoryPage.constructor` | src/app/meditacoes/ansiedade/page.tsx:48-50 | the static list, loading, no error |
| `CategoryPages.CategoryPage.FetchMeditacoes` | src/app/meditacoes/ansiedade/page.tsx:53-87 | without a database nothing changes and loading stays; a non-empty answer replaces the list with `ItemsOf`, the page as written; an empty one keeps it; a failed read keeps it and sets the local-data message; the list is never empty |
| `CategoryPages.CategoryPage.NeverShowsEmptyNotice` | src/app/meditacoes/ansiedade/page.tsx:121-129 | the "no meditation found" branch is unreachable |
| `CategoryPages.FetchedListIsTheCategory` | src/app/meditacoes/ansiedade/page.tsx:58-76 | the fetched list holds exactly the stored meditations of the category: each stored one is listed, each listed one is stored with that category and title, no id twice, ordered by title |
| `Routes.Segments` | src/app/meditacoes-salvas/page.tsx:118 | splitting at "/" gives at least one segment, and one exactly when there is no "/" |
| `Routes.SegmentsOfJoin` | src/app/meditacoes-salvas/page.tsx:118 | a segment joined to a path by "/" splits off first |
| `Routes.MeditationLink` | src/app/meditacoes-salvas/page.tsx:118 | for a category and an id without "/", the link splits back into "", "meditacoes", the category and the id; the saved page and the category pages build every item link with it |
| `Routes.MeditationLinkInjective` | src/app/meditacoes-salvas/page.tsx:135 | different meditations have different links |
| `Routes.CategoryRoute` | src/app/page.tsx:185 | for a name without "/", the category route splits back into "", "meditacoes" and the lower-cased name |
| `Sorting.SortBy` | src/app/configuracoes/notificacoes/page.tsx:176 | `sort()`: a permutation of the list ordered by string form |
| `Sorting.SortedUnique` | src/app/configuracoes/notificacoes/page.tsx:208 | two sorted permutations of the same list are equal when distinct elements have distinct string forms |
| `Sorting.SortBySortedIsIdentity` | src/app/configuracoes/notificacoes/page.tsx:208 | sorting a sorted list without repeated keys changes nothing |
| `Sorting.DistinctPermutation` | src/app/configuracoes/notificacoes/page.tsx:208 | a rearrangement of a repetition-free list is repetition-free |
| `Text.OrElse` | src/app/page.tsx:95 | `a \|\| b` on strings: the result is b or the text a holds, a itself when non-empty, and it is non-empty exactly when a non-empty text or a non-empty fallback is given |
| `Text.IntToString` | src/app/page.tsx:70-73 | a non-empty numeral that starts with "-" exactly for negative numbers |
| `Text.IntToStringParsesBack` | src/app/configuracoes/notificacoes/page.tsx:215 | `parseInt` reads the decimal form of any integer back as that exact integer; the source's Number result agrees when the magnitude is at most 2^53 (see "## Left out") |
| `Text.Pad2` | src/app/page.tsx:71-72 | the padded numeral has at least two characters, all digits; Pad2Digits gives its value |
| `Text.Pad2Digits` | src/app/page.tsx:73-74 | `padStart(2, "0")` of a number below 100 is two digits with that value |
| `Text.PadStart` | src/app/page.tsx:73-74 | the text is kept at the end and filled in front up to the width |
| `Text.ToLowerAscii` | src/app/page.tsx:185 | `toLowerCase` on ASCII: same length, no capital left, each capital becomes its small letter, every other character kept, and a text without capitals is unchanged |
| `Text.ToLowerAsciiIdempotent` | src/app/page.tsx:185 | lower-casing twice is lower-casing once |
| `Text.JsParseInt` | src/app/configuracoes/notificacoes/page.tsx:215 | empty input gives NaN, and a negative result needs a "-" in the input; JsParseIntBlankAndSign sharpens both, and ParseIntReadsNumeral and ParseIntReadsNegativeNumeral give the values |
| `Text.ReadSigned` | src/app/configuracoes/notificacoes/page.tsx:215 | once the blanks are skipped, nothing left gives NaN, and a negative number needs a leading "-" |
| `Text.TrimStartEmptyIffBlank` | src/app/configuracoes/notificacoes/page.tsx:215 | skipping the leading blanks leaves nothing exactly when the input is all blanks |
| `Text.JsParseIntBlankAndSign` | src/app/configuracoes/notificacoes/page.tsx:215 | input that is empty or only blanks gives NaN, and a negative number comes only from a "-" as the first character after the blanks |
| `Text.ParseIntReadsNumeral` | src/app/configuracoes/notificacoes/page.tsx:215 | parseInt reads a decimal numeral followed by a non-digit as its exact value, which the source's Number result agrees with up to 2^53 |
| `Text.ParseIntReadsNegativeNumeral` | src/app/configuracoes/notificacoes/page.tsx:215 | parseInt of "-" and a numeral is the exact negative value, which the source's Number result agrees with down to -2^53 |
| `Text.FullDateOrderIsChronological` | src/app/admin/mana-diario/page.tsx:46 | for YYYY-MM-DD strings string order is calendar order |

## Left out

- Console logging, JSX markup and styling are not modelled.
- Firebase initialisation (src/lib/firebase.ts), the PWA build configuration and the root layout are not part of this model.
- The Firestore and Auth SDKs are abstract. `where`/`orderBy` queries are not evaluated: their answers are parameters that `Home.QueryAnswers`, `CategoryPages.QueryAnswers` and `Records.ListingOf` constrain. `signInWithPopup`, `createUserWithEmailAndPassword` and `updateProfile` are reduced to success flags or outcomes.
- `addDoc` picks a fresh document id; the model takes that id as a parameter and requires it to be unused.
- Concurrency: the read-then-write of favourites and reminder settings is sequential here, so races between tabs (last write wins) are not modelled.
- Timers: the 3-second clears of success and error messages are not modelled. Neither are `alert` and `window.scrollTo`. A `confirm` dialog is the `confirmed` parameter.
- `router.push` is modelled as an output (`redirectTo`, `Guards.*Redirect`), not as navigation.
- After a submit or a delete the admin pages fetch the list again; the model leaves that to a separate `FetchMeditacoes`/`FetchManaEntries` call.
- `localStorage` is one stored value (`storedIcon`); only the allow-list check and the write are modelled.
- The profile page's display-name editing (`handleSaveName`) and achievement details popup are not modelled, being UI outside the achievement rules.
- Floating point: the progress and volume gradient percentages, and the NaN branch of `formatTime`, are not modelled. Player positions are exact reals; `AudioPlayer.FormatTime` takes whole seconds.
- Text.JsParseInt: returns the exact integer of the digits and leaves out the last step of section 19.2.5 of ECMAScript 2024, the conversion to a double. Above 2^53 in magnitude the source rounds (`parseInt("9007199254740993")` is 9007199254740992), and a numeral too long for a double gives `Infinity`, which `src/app/configuracoes/notificacoes/page.tsx:215-217` accepts and stores as `antecedencia`. The model stores the exact, unbounded integer there instead. `Text.IntToStringParsesBack`, `Text.ParseIntReadsNumeral` and `Text.ParseIntReadsNegativeNumeral` state the exact value, so they agree with the source only for magnitudes up to 2^53. Binary floating-point rounding is not modelled.
- `AudioPlayer.Player.HandleVolumeChangeAsWritten` and `AudioPlayer.Player.HandleVolumeChange` require a volume in [0, 1], the range of the slider (src/components/AudioPlayer/AudioPlayer.tsx:193-196).
- The media element is abstract: its playback progress is the `OnTimeUpdate` and `OnEnded` events, whether `play()` succeeds is the `playOk` parameter of `AudioPlayer.Player.TogglePlay`, and the promise is not awaited, so the rejection takes effect at once.
- `CategoryPages.CategoryPage.FetchMeditacoes` models the page as written. The intended page differs only in the list it stores, `CategoryPages.ItemsOfCorrected`, so it has no fetch method of its own.
- `Notifications.NotificationsPage.AtualizarHorario` requires an index inside the list; the page only passes indices of the times it renders.
- `Intl.DateTimeFormat` in `formatarData` and the time-zone dependent date display of the manna admin page are not modelled.
- `new Date()` is the integer instant `now`. A favourite's `dataSalvo` is that instant, standing for the `toISOString()` text the sort parses back.
- The Bible-reference regular expression of the home page is the `extract` parameter of `Home.ResolveMana`; only the precedence of its result is modelled.
- Strings are sequences of characters. JavaScript's UTF-16 code units (in `substring`, `length`, `toLowerCase` beyond ASCII) are not modelled; `Text.ToLowerAscii` lowers only A to Z.
- Firestore orders strings by UTF-8 bytes. `Text.LexLess` compares characters, which agrees on the ASCII day strings the manna listing sorts.
- The home page greeting (`displayName || email`) and the other pages' markup are not modelled.
- `SavedMeditations.CategoryLabel` looks slugs up in a map; JavaScript object keys such as "constructor", which `categoriaNomes[...]` would also find, are not modelled.
- `SignUp.CadastroPage.HandleCadastro`: when `updateProfile` fails after the account was created, the account still exists; the model records only the error message shown.
- The admin dashboard, the login page, the navbar and the static meditation pages have no rules to model and are not part of this model.

## Findings

| source | as written | input that shows it | evidently intended | confidence | as-written member | corrected member |
|---|---|---|---|---|---|---|
| src/app/perfil/page.tsx:189 | `calcularConquistas()` in the `finally` block reads the `jornada` of the render that started the load, not the journey just set | a user whose stored journey has `totalMeditacoes: 1` opens the profile: the page shows no unlocked achievement | compute the achievements from the journey that was loaded | high, not executed | `Profile.ProfilePage.CarregarDadosJornadaAsWritten`, `Profile.StaleAchievementsExample` | `Profile.ProfilePage.CarregarDadosJornada` |
| src/components/AudioPlayer/AudioPlayer.tsx:60-67 | the volume handler sets `isMuted` but never the element's `muted` | mute, then move the volume slider to 0.5: the button shows "unmuted" and the audio stays silent | keep the element's `muted` equal to `isMuted` | medium, not executed | `AudioPlayer.Player.HandleVolumeChangeAsWritten`, `AudioPlayer.MuteThenVolumeExample` | `AudioPlayer.Player.HandleVolumeChange`, `AudioPlayer.MuteThenVolumeCorrected` |
| src/app/meditacoes/ansiedade/page.tsx:72 | `data.texto?.substring(0, 100) + "..." \|\| "Sem descrição disponível"` concatenates before `\|\|`, so the fallback is never chosen | a stored meditation without `texto` is described as "undefined..." (the same on the sono, foco and paz pages) | the fallback text when there is no text | high, not executed | `CategoryPages.DescriptionAsWritten`, `CategoryPages.DescriptionFallbackUnreachable`, `CategoryPages.ItemsOf`, `CategoryPages.FetchedDescriptions` | `CategoryPages.Description`, `CategoryPages.ItemsOfCorrected` |
