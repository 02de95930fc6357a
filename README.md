# Quizmaster client, modelled in Dafny

A model of the Android quiz client "Quizmaster". Players sign in (online, or offline against credentials
remembered on the device), play quizzes page by page for ten points per correct answer, see their open and
completed quizzes, author quizzes as drafts or publish them, and compare scores on a leaderboard.

The model has one module per core Kotlin file, plus three small helper modules:

- `Wrappers`: `Option`, and `Fetched`, the outcome of a two-tier read (server, cache, or neither).
- `KotlinStd`: the Kotlin library behaviour the core relies on. This covers `Long.toInt()` wrap-around,
  `Int` division truncating toward zero, `toIntOrNull`, `isBlank`, `isDigit` and
  `equals(ignoreCase = true)`.
- `Sequences`: `filter` and a stable sort by key (Kotlin's `sortedBy` is stable), with their lemmas.

How the source's parts are modelled:

- **The remote document store** is the class `Repository.QuizRepository`.
  - It holds three maps: quizzes by id, questions by id, and each user's attempts by quiz id.
  - Its writes are methods.
  - Its reads are functions of what a read returned (`Fetched`). The predicate `Lists` ties a returned
    listing to the stored map, so that end-to-end lemmas can state that a write is visible to the next read.
- **The local `user_stats` table** is `UserStats.UserDao`.
- **The session preference file** is `UserPrefs.UserPrefsManager`. The "BypassOffline" file, here called
  the vault, is `UserPrefs.OfflineVault`.
- **Each screen** is a class holding the screen's remembered state, with one method per user action or effect.
  - Pure derivations (lists, tabs, podium, statistics) are functions with their own contracts.
  - The activity that switches screens is `App.MainActivity`.

Things outside the program are parameters:

- the clock (`now`);
- fresh document ids;
- the validity verdict of the email pattern;
- the outcome of each authentication call;
- whether a remote write succeeded.

Every Firestore document path must be a non-empty id without `/`, otherwise the call throws and the
surrounding `try` reports success having written nothing. `Repository.ValidDocId` models this.

## Model

| member | source | states |
|---|---|---|
| Models.DefaultQuizIsEmptyPublished | app/src/main/java/com/example/quizandroid/data/model/Models.kt:4-13 | a default quiz is empty, active, published ("ativo") and stamped with the clock |
| Models.DefaultQuestionHasNoValidAnswer | app/src/main/java/com/example/quizandroid/data/model/Models.kt:16-23 | the question type does not tie the answer index to the options: its default has index 0 and no options |
| Models.QuizEqualityIsStructural | app/src/main/java/com/example/quizandroid/data/model/Models.kt:4-13 | data-class equality: two quizzes are equal exactly when all eight fields are |
| Models.QuestionEqualityIsStructural | app/src/main/java/com/example/quizandroid/data/model/Models.kt:16-23 | two questions are equal exactly when all six fields are |
| KotlinStd.ToInt | app/src/main/java/com/example/quizandroid/ui/login/HomeScreen.kt:90 | `Long.toInt()`: the result is an `Int`, congruent to the input modulo 2^32, and the identity on values already in range |
| KotlinStd.TruncDiv | app/src/main/java/com/example/quizandroid/ui/login/HomeScreen.kt:165 | `Int` division: the remainder has the dividend's sign and is smaller than the divisor |
| KotlinStd.ToIntOrNull | app/src/main/java/com/example/quizandroid/ui/CreateQuizSetupDialog.kt:81 | `toIntOrNull`: null for "", the decimal value of a digit string exactly when it fits an `Int`, and never a value outside `Int` |
| KotlinStd.EqualsIgnoreCaseIsEquivalence | app/src/main/java/com/example/quizandroid/ui/login/LoginScreen.kt:130-147 | the case-insensitive email comparison is reflexive, symmetric and transitive |
| QuestionForm.QuestionFormState.constructor | app/src/main/java/com/example/quizandroid/ui/QuestionFormState.kt:7-11 | a new form has an empty statement, exactly `alternativesCount` blank options and answer index 0 |
| QuestionForm.QuestionFormState.Default | app/src/main/java/com/example/quizandroid/ui/QuestionFormState.kt:7 | the default form has four blank options |
| QuestionForm.QuestionFormState.SetQuestionText | app/src/main/java/com/example/quizandroid/ui/QuestionFormState.kt:8 | the statement changes and the other two fields do not |
| QuestionForm.QuestionFormState.SetOptions | app/src/main/java/com/example/quizandroid/ui/QuestionFormState.kt:10 | the options change and the other two fields do not |
| QuestionForm.QuestionFormState.SetCorrectAnswerIndex | app/src/main/java/com/example/quizandroid/ui/QuestionFormState.kt:11 | the answer index changes and the other two fields do not |
| QuestionForm.Snapshot | app/src/main/java/com/example/quizandroid/data/remote/QuizRepository.kt:69-82 | the values of a list of forms, one per form, in order |
| QuestionForm.InitialAnswerInRangeIff | app/src/main/java/com/example/quizandroid/ui/QuestionFormState.kt:10-11 | a new form's answer index names an option exactly when it has at least one alternative |
| Repository.GetActiveQuizzes | app/src/main/java/com/example/quizandroid/data/remote/QuizRepository.kt:90-104 | the listing holds exactly the documents read that have status "ativo", or no status and the active flag; none of them is a draft; nothing when both tiers fail |
| Repository.GetMyDrafts | app/src/main/java/com/example/quizandroid/data/remote/QuizRepository.kt:106-120 | exactly the documents read that are drafts by the given author, none of them listed as active |
| Repository.GetQuestionsByQuizId | app/src/main/java/com/example/quizandroid/data/remote/QuizRepository.kt:131-147 | the quiz's questions, sorted by order index, a permutation of the quiz's documents read |
| Repository.GetUserCompletedQuizzes | app/src/main/java/com/example/quizandroid/data/remote/QuizRepository.kt:160-175 | the attempts read, or nothing when both tiers fail |
| Repository.StaleQuestionIds | app/src/main/java/com/example/quizandroid/data/remote/QuizRepository.kt:57-67 | exactly the ids of the stored questions of the quiz |
| Repository.BatchList | app/src/main/java/com/example/quizandroid/data/remote/QuizRepository.kt:69-82 | question i has the i-th new id, the quiz id, form i's statement, options and answer, and order index i |
| Repository.QuizRepository.constructor | app/src/main/java/com/example/quizandroid/data/remote/QuizRepository.kt:18-26 | the store starts empty and consistent |
| Repository.QuizRepository.PublishQuiz | app/src/main/java/com/example/quizandroid/data/remote/QuizRepository.kt:28-88 | always reports success; writes the envelope (keeping the creation time on an edit), deletes the quiz's old questions when the internal read succeeded, and writes the batch; with an invalid id it writes nothing |
| Repository.QuizRepository.WriteQuestions | app/src/main/java/com/example/quizandroid/data/remote/QuizRepository.kt:69-82 | the loop adds exactly the batch of one question per form |
| Repository.QuizRepository.DeleteQuestions | app/src/main/java/com/example/quizandroid/data/remote/QuizRepository.kt:57-67 | the loop removes exactly the given ids |
| Repository.QuizRepository.ReleaseQuiz | app/src/main/java/com/example/quizandroid/data/remote/QuizRepository.kt:122-129 | an existing quiz becomes "ativo" and active, and nothing else changes; a missing or invalid id changes nothing |
| Repository.QuizRepository.SaveQuizAttempt | app/src/main/java/com/example/quizandroid/data/remote/QuizRepository.kt:149-158 | the attempt is stored under the user and the quiz id, replacing any earlier one |
| Repository.QuizRepository.DeleteQuiz | app/src/main/java/com/example/quizandroid/data/remote/QuizRepository.kt:177-192 | the envelope and, as far as the internal read saw them, the quiz's questions are removed; attempts stay |
| Repository.BatchIdsAreKeys | app/src/main/java/com/example/quizandroid/data/remote/QuizRepository.kt:69-82 | each batch question is filed under its own id |
| Repository.BatchShape | app/src/main/java/com/example/quizandroid/data/remote/QuizRepository.kt:69-82 | with distinct ids, the batch has one entry per form, each built from its form |
| Repository.OwnQuestionsAreBatch | app/src/main/java/com/example/quizandroid/data/remote/QuizRepository.kt:28-88 | after an online publish, every stored question of the quiz belongs to the new batch |
| Repository.ListedOwnAreBatch | app/src/main/java/com/example/quizandroid/data/remote/QuizRepository.kt:131-147 | a listing of that store shows only batch questions for the quiz |
| Repository.BatchOrderIndexesDistinct | app/src/main/java/com/example/quizandroid/data/remote/QuizRepository.kt:71-80 | distinct batch questions have distinct order indexes |
| Repository.ListedCoversBatch | app/src/main/java/com/example/quizandroid/data/remote/QuizRepository.kt:131-147 | every order index 0..n-1 appears in the listing read back |
| Repository.BatchReadBack | app/src/main/java/com/example/quizandroid/data/remote/QuizRepository.kt:131-147 | sorting the listed questions by order index gives the batch back in form order |
| Repository.PublishedQuestionsReadBack | app/src/main/java/com/example/quizandroid/data/remote/QuizRepository.kt:28-147 | after an online publish, reading the quiz's questions gives exactly the published forms as questions, in order |
| Repository.PublishedQuizListing | app/src/main/java/com/example/quizandroid/data/remote/QuizRepository.kt:43-51 | a published envelope is listed as active exactly when its status is "ativo", and as a draft of a user exactly when it is a draft by that user |
| Repository.ReleasedQuizIsListedActive | app/src/main/java/com/example/quizandroid/data/remote/QuizRepository.kt:122-129 | after a release the quiz is listed as active and as nobody's draft |
| Repository.DeleteOnlineRemovesExactlyTheQuiz | app/src/main/java/com/example/quizandroid/data/remote/QuizRepository.kt:177-192 | after an online delete, no listing shows the quiz or its questions, and every other question is untouched |
| Repository.SavedAttemptIsListedOnce | app/src/main/java/com/example/quizandroid/data/remote/QuizRepository.kt:149-175 | a saved attempt is listed, is the only attempt listed for its quiz, and other users' attempts are unchanged |
| UserStats.UserDao.constructor | app/src/main/java/com/example/quizandroid/data/model/UserEntity.kt:6-14 | a table whose rows are filed under their own uid |
| UserStats.UserDao.InsertUser | app/src/main/java/com/example/quizandroid/data/model/UserDao.kt:8-9 | insert with REPLACE: the row under the uid becomes the new row |
| UserStats.UserDao.GetUserById | app/src/main/java/com/example/quizandroid/data/model/UserDao.kt:11-12 | the row of that uid, absent exactly when no such row exists |
| UserStats.UserDao.UpdateScore | app/src/main/java/com/example/quizandroid/data/model/UserDao.kt:14-15 | the table after adding the points and one completed quiz to that row |
| UserStats.UserDao.UpdateAvatar | app/src/main/java/com/example/quizandroid/data/model/UserDao.kt:18-19 | the table after changing that row's avatar |
| UserStats.NewUserDefaults | app/src/main/java/com/example/quizandroid/data/model/UserEntity.kt:6-14 | a new row has no score, no completed quiz and the default avatar |
| UserStats.InsertThenLookup | app/src/main/java/com/example/quizandroid/data/model/UserDao.kt:8-12 | reading back the inserted key gives the inserted row; other keys read as before |
| UserStats.ScoreUpdateEffect | app/src/main/java/com/example/quizandroid/data/model/UserDao.kt:14-15 | the update adds the points and one quiz to its own row only, keeps the other columns, and is a no-op for a missing row |
| UserStats.ScoreUpdatesAccumulate | app/src/main/java/com/example/quizandroid/data/model/UserDao.kt:14-15 | two score updates commute and add up |
| UserStats.AvatarUpdateEffect | app/src/main/java/com/example/quizandroid/data/model/UserDao.kt:18-19 | the update changes only that row's avatar, and is a no-op for a missing row |
| UserStats.ScoreAndAvatarCommute | app/src/main/java/com/example/quizandroid/data/model/UserDao.kt:14-19 | score and avatar updates commute |
| UserPrefs.UserPrefsManager.constructor | app/src/main/java/com/example/quizandroid/data/model/UserPrefsManager.kt:6-8 | the file as found on the device |
| UserPrefs.UserPrefsManager.SaveUser | app/src/main/java/com/example/quizandroid/data/model/UserPrefsManager.kt:16-22 | the three keys take the three values |
| UserPrefs.UserPrefsManager.ClearUser | app/src/main/java/com/example/quizandroid/data/model/UserPrefsManager.kt:34-36 | the file is empty |
| UserPrefs.SaveThenRead | app/src/main/java/com/example/quizandroid/data/model/UserPrefsManager.kt:16-38 | each getter reads back the value saved for it, and the user is logged in |
| UserPrefs.SaveTwiceLastWins | app/src/main/java/com/example/quizandroid/data/model/UserPrefsManager.kt:16-22 | a second save overwrites the first |
| UserPrefs.MissingNameDefaults | app/src/main/java/com/example/quizandroid/data/model/UserPrefsManager.kt:24-32 | without a stored name, `getUserName` gives "Jogador" and `getName` null |
| UserPrefs.ClearedFileReadsDefaults | app/src/main/java/com/example/quizandroid/data/model/UserPrefsManager.kt:34-38 | a cleared file is logged out and every getter gives its default |
| UserPrefs.ActingUid | app/src/main/java/com/example/quizandroid/ui/login/HomeScreen.kt:55 | the signed-in account's id, else the id remembered in the vault, else "" |
| UserPrefs.OfflineVault.constructor | app/src/main/java/com/example/quizandroid/ui/login/LoginScreen.kt:82-86 | the vault as found on the device |
| UserPrefs.OfflineVault.Remember | app/src/main/java/com/example/quizandroid/ui/login/LoginScreen.kt:106-111 | the four keys take the credentials and profile, and the biometric flag is unchanged |
| PlayQuiz.CorrectCount | app/src/main/java/com/example/quizandroid/ui/PlayQuizScreen.kt:141-179 | the number of correctly answered pages among the first n is at most n |
| PlayQuiz.CorrectCountAfterAnswer | app/src/main/java/com/example/quizandroid/ui/PlayQuizScreen.kt:174-179 | a first answer on a page adds one correct page exactly when it is the right option |
| PlayQuiz.CorrectCountEmpty | app/src/main/java/com/example/quizandroid/ui/PlayQuizScreen.kt:62-63 | with no answers, no page is correct |
| PlayQuiz.PlaySession.constructor | app/src/main/java/com/example/quizandroid/ui/PlayQuizScreen.kt:59-70 | once loaded: first page, no answers, score 0, not finished |
| PlayQuiz.PlaySession.Choose | app/src/main/java/com/example/quizandroid/ui/PlayQuizScreen.kt:136-188 | a tap on an answered page does nothing; otherwise it records the answer, adds 10 exactly when it is correct, and then turns the page or finishes with the score; the score stays between 0 and 10 per question, and a finished session has every page answered |
| PlayQuiz.FinalScoreBounds | app/src/main/java/com/example/quizandroid/ui/PlayQuizScreen.kt:179-186 | the reported score is a multiple of ten, between 0 and ten times the number of questions |
| Home.HeaderName | app/src/main/java/com/example/quizandroid/ui/login/HomeScreen.kt:57-58 | the local row's name, else the saved name, else "Jogador" |
| Home.LaunchRow | app/src/main/java/com/example/quizandroid/ui/login/HomeScreen.kt:62-72 | the upserted row keeps name, score and avatar as shown, takes the saved email, and has zero completed quizzes |
| Home.LaunchUpsert | app/src/main/java/com/example/quizandroid/ui/login/HomeScreen.kt:57-72 | with a user id, the row under it becomes the launch row built from the row as shown, which is none on the first run; without one, nothing changes |
| Home.LaunchKeys | app/src/main/java/com/example/quizandroid/ui/login/HomeScreen.kt:57-62 | the effect's keys are the user id, the header's name and the shown score, 0 without a row |
| Home.FirstLaunchOverwritesStoredRow | app/src/main/java/com/example/quizandroid/ui/login/HomeScreen.kt:57-72 | the first run writes zero points and the default avatar over a stored row, and once that write is shown the keys are unchanged, so the effect does not run again; a stored row shown first changes the keys exactly when its score is non-zero or its name differs from the saved one, and only then is its score and avatar written back; otherwise a non-default stored avatar is lost |
| Home.UpsertAfterScoreUpdateResetsDone | app/src/main/java/com/example/quizandroid/ui/login/HomeScreen.kt:62-72 | a score update followed by the upsert keeps the new score but resets the completed count to 0 |
| Home.PublicIsLooserThanListedAsActive | app/src/main/java/com/example/quizandroid/ui/login/HomeScreen.kt:92 | every quiz the repository lists as active is public here, and a quiz without status and with the flag off is public here but not listed as active |
| Home.StoredScore | app/src/main/java/com/example/quizandroid/ui/login/HomeScreen.kt:90 | a missing score reads 0; a stored score is cut to `Int` |
| Home.CompletedMap | app/src/main/java/com/example/quizandroid/ui/login/HomeScreen.kt:90 | every completed document's id is a key, and every value is an `Int` |
| Home.CompletedMapKeys | app/src/main/java/com/example/quizandroid/ui/login/HomeScreen.kt:90 | every key comes from some completed document |
| Home.CompletedMapLastWins | app/src/main/java/com/example/quizandroid/ui/login/HomeScreen.kt:90 | for a repeated id, the last document's score wins |
| Home.OpenQuizzes | app/src/main/java/com/example/quizandroid/ui/login/HomeScreen.kt:98 | exactly the public quizzes not completed, newest first |
| Home.WithScores | app/src/main/java/com/example/quizandroid/ui/login/HomeScreen.kt:99 | each quiz paired with its stored score |
| Home.WithScoresMembers | app/src/main/java/com/example/quizandroid/ui/login/HomeScreen.kt:99 | a pair is listed exactly when its quiz is listed and completed with that score |
| Home.CompletedQuizzes | app/src/main/java/com/example/quizandroid/ui/login/HomeScreen.kt:99 | exactly the public, completed quizzes, each with its score, newest first |
| Home.OpenAndCompletedPartitionPublic | app/src/main/java/com/example/quizandroid/ui/login/HomeScreen.kt:92-99 | every public quiz is in exactly one of the two lists, and their lengths add up to the public count |
| Home.Hits | app/src/main/java/com/example/quizandroid/ui/login/HomeScreen.kt:165 | hits are the score divided by ten, rounded toward zero |
| Home.HitsOfPlayedScore | app/src/main/java/com/example/quizandroid/ui/login/HomeScreen.kt:165 | a score earned in play gives back the number of correct answers |
| Home.HitsAndMisses | app/src/main/java/com/example/quizandroid/ui/login/HomeScreen.kt:165-166 | hits plus misses is the question count, and misses are negative exactly when the score reaches ten points per question plus ten |
| Home.Drafts | app/src/main/java/com/example/quizandroid/ui/login/HomeScreen.kt:104-107 | exactly the user's drafts, newest first |
| Home.DraftsAreNeverListedPublic | app/src/main/java/com/example/quizandroid/ui/login/HomeScreen.kt:92-107 | no draft appears among the open or the completed quizzes |
| Home.Tabs | app/src/main/java/com/example/quizandroid/ui/login/HomeScreen.kt:120-121 | "Abertos" and "Concluídos", and "Rascunhos" exactly when there are drafts |
| Home.CurrentTabIsShown | app/src/main/java/com/example/quizandroid/ui/login/HomeScreen.kt:155 | the content shown is the selected tab's, or "Abertos" when the index is out of range |
| Home.HomeScreenState.constructor | app/src/main/java/com/example/quizandroid/ui/login/HomeScreen.kt:74-80 | empty lists, loading, first tab, no delete pending |
| Home.HomeScreenState.OnQuizzesSnapshot | app/src/main/java/com/example/quizandroid/ui/login/HomeScreen.kt:86-101 | the open and completed lists become those of the snapshots, and loading ends |
| Home.HomeScreenState.OnDraftsSnapshot | app/src/main/java/com/example/quizandroid/ui/login/HomeScreen.kt:104-107 | the drafts become those of the snapshot; the selected tab stays valid unless the snapshot removes the selected drafts tab, which the next clamp repairs |
| Home.HomeScreenState.ClampTab | app/src/main/java/com/example/quizandroid/ui/login/HomeScreen.kt:122 | an index past the tabs moves to the last tab; an index in range keeps its tab |
| Home.HomeScreenState.SelectTab | app/src/main/java/com/example/quizandroid/ui/login/HomeScreen.kt:148 | the tapped tab becomes current |
| Home.HomeScreenState.AskDelete | app/src/main/java/com/example/quizandroid/ui/login/HomeScreen.kt:180 | the trash icon makes that draft the pending delete |
| Home.HomeScreenState.CancelDelete | app/src/main/java/com/example/quizandroid/ui/login/HomeScreen.kt:185 | the dialog closes without deleting |
| Home.HomeScreenState.ConfirmDelete | app/src/main/java/com/example/quizandroid/ui/login/HomeScreen.kt:185 | the pending quiz is deleted from the store and the dialog closes |
| Home.ReleaseDraft | app/src/main/java/com/example/quizandroid/ui/login/HomeScreen.kt:180 | the rocket icon publishes the draft in the store |
| Profile.ProfileNameAgreesWithHeader | app/src/main/java/com/example/quizandroid/ui/ProfileScreen.kt:64 | the profile shows the same name as the home header unless neither the row nor the session has one, when it falls back on the vault |
| Profile.SumOfInt | app/src/main/java/com/example/quizandroid/ui/ProfileScreen.kt:83 | `sumOf` over `Int` scores is an `Int` |
| Profile.SumOfIntIsWrappedSum | app/src/main/java/com/example/quizandroid/ui/ProfileScreen.kt:83 | the stepwise `Int` sum equals the exact sum wrapped once to 32 bits |
| Profile.Reconciled | app/src/main/java/com/example/quizandroid/ui/ProfileScreen.kt:78-91 | each figure is the larger of the local one and the one counted from the store; the total is at least the completed count |
| Profile.OpenCount | app/src/main/java/com/example/quizandroid/ui/ProfileScreen.kt:233 | the open count is the total minus the completed, never negative |
| Profile.ReconciledOpenCount | app/src/main/java/com/example/quizandroid/ui/ProfileScreen.kt:78-91 | after reconciling, the open count is exactly the total minus the completed |
| Profile.AverageMisses | app/src/main/java/com/example/quizandroid/ui/ProfileScreen.kt:235 | "Erros Média" is the completed count divided by five, rounded down |
| Profile.NameEditAsWrittenSwapsFields | app/src/main/java/com/example/quizandroid/ui/ProfileScreen.kt:120 | as written, the rename stores the new name as the email and the email as the name |
| Profile.NameEditAsWrittenCounterexample | app/src/main/java/com/example/quizandroid/ui/ProfileScreen.kt:120 | renaming to "Ana" with email "ana@mail.com" makes the session name "ana@mail.com" |
| Profile.NameEditKeepsNameAndEmail | app/src/main/java/com/example/quizandroid/ui/ProfileScreen.kt:120 | the corrected rename stores the new name as the name and keeps the email |
| Profile.ProfileScreenState.constructor | app/src/main/java/com/example/quizandroid/ui/ProfileScreen.kt:60-73 | zero statistics, both dialogs closed, the edit field on the current name |
| Profile.ProfileScreenState.Reconcile | app/src/main/java/com/example/quizandroid/ui/ProfileScreen.kt:78-91 | with a user id the statistics become the reconciled ones; without one they stay |
| Profile.ProfileScreenState.OpenNameDialog | app/src/main/java/com/example/quizandroid/ui/ProfileScreen.kt:201-204 | the dialog opens on the current name |
| Profile.ProfileScreenState.EditName | app/src/main/java/com/example/quizandroid/ui/ProfileScreen.kt:101 | the field takes the typed text |
| Profile.ProfileScreenState.ConfirmName | app/src/main/java/com/example/quizandroid/ui/ProfileScreen.kt:108-124 | a blank name writes nothing; otherwise the local row takes the name, the session is rewritten with the corrected argument order, and the dialog closes |
| Profile.ProfileScreenState.DismissNameDialog | app/src/main/java/com/example/quizandroid/ui/ProfileScreen.kt:130 | the dialog closes and nothing is written |
| Profile.ProfileScreenState.OpenAvatarDialog | app/src/main/java/com/example/quizandroid/ui/ProfileScreen.kt:187 | the avatar dialog opens |
| Profile.ProfileScreenState.ChooseAvatar | app/src/main/java/com/example/quizandroid/ui/ProfileScreen.kt:142-151 | the local row takes the avatar and the dialog closes |
| Profile.ProfileScreenState.DismissAvatarDialog | app/src/main/java/com/example/quizandroid/ui/ProfileScreen.kt:138 | the dialog closes and nothing is written |
| Profile.RenameIsShown | app/src/main/java/com/example/quizandroid/ui/ProfileScreen.kt:108-124 | after the corrected rename the profile shows the new name, with or without a local row |
| Ranking.ToRankingUser | app/src/main/java/com/example/quizandroid/ui/RankingScreen.kt:53-57 | the row keeps the document id; a missing name, score or avatar takes "Jogador", 0 or the default avatar; the score is cut to `Int` |
| Ranking.RankingUsers | app/src/main/java/com/example/quizandroid/ui/RankingScreen.kt:53-58 | one row per document, in order |
| Ranking.RankingScreenState.constructor | app/src/main/java/com/example/quizandroid/ui/RankingScreen.kt:37-38 | no users, loading |
| Ranking.RankingScreenState.Load | app/src/main/java/com/example/quizandroid/ui/RankingScreen.kt:41-81 | the users become those of the server or cache read; when both fail they stay; loading always ends |
| Ranking.ViewOf | app/src/main/java/com/example/quizandroid/ui/RankingScreen.kt:123-151 | a spinner exactly while loading, the empty message exactly when loaded with no users |
| Ranking.PodiumOf | app/src/main/java/com/example/quizandroid/ui/RankingScreen.kt:133-135 | gold, silver and bronze are the first three users, each present exactly when that many users exist |
| Ranking.RemainingRows | app/src/main/java/com/example/quizandroid/ui/RankingScreen.kt:141-145 | every user after the third, numbered from 4 |
| Ranking.EveryUserShownOnceWithItsRank | app/src/main/java/com/example/quizandroid/ui/RankingScreen.kt:133-145 | each user appears exactly once, at rank position + 1 |
| SetupDialog.ParseOr | app/src/main/java/com/example/quizandroid/ui/CreateQuizSetupDialog.kt:81 | the parsed field, or the fallback for an empty or too large field; never negative for digits |
| SetupDialog.SetupDialogState.constructor | app/src/main/java/com/example/quizandroid/ui/CreateQuizSetupDialog.kt:20-22 | empty title, "5" questions, "4" options |
| SetupDialog.SetupDialogState.EditTitle | app/src/main/java/com/example/quizandroid/ui/CreateQuizSetupDialog.kt:45 | the title takes the text |
| SetupDialog.SetupDialogState.EditCount | app/src/main/java/com/example/quizandroid/ui/CreateQuizSetupDialog.kt:56 | the count field takes the text only when it is all digits |
| SetupDialog.SetupDialogState.EditAlternatives | app/src/main/java/com/example/quizandroid/ui/CreateQuizSetupDialog.kt:66 | the options field takes the text only when it is all digits |
| SetupDialog.SetupDialogState.Next | app/src/main/java/com/example/quizandroid/ui/CreateQuizSetupDialog.kt:79-82 | a request exactly when the title is not blank, with that title and non-negative figures |
| SetupDialog.UntouchedFieldsGiveDefaults | app/src/main/java/com/example/quizandroid/ui/CreateQuizSetupDialog.kt:20-22 | left untouched, the fields give five questions of four options |
| CreateQuestions.SaveStatus | app/src/main/java/com/example/quizandroid/ui/CreateQuestionsScreen.kt:89-104 | the draft button always saves as "rascunho"; publish saves as "ativo" exactly when every statement and option is filled |
| CreateQuestions.PublishedQuestionsAreFilled | app/src/main/java/com/example/quizandroid/ui/CreateQuestionsScreen.kt:98-104 | every question a publish writes has a non-blank statement and non-blank options |
| CreateQuestions.PublishAcceptsFormWithoutOptions | app/src/main/java/com/example/quizandroid/ui/CreateQuestionsScreen.kt:98-104 | a form with no options at all passes the publish check |
| CreateQuestions.FilledFormsPublish | app/src/main/java/com/example/quizandroid/ui/CreateQuestionsScreen.kt:98-104 | filling every field passes the publish check |
| CreateQuestions.BlankTextRefusesPublish | app/src/main/java/com/example/quizandroid/ui/CreateQuestionsScreen.kt:98-104 | one blank statement refuses publishing but not saving a draft |
| CreateQuestions.InitialQuestionStates | app/src/main/java/com/example/quizandroid/ui/CreateQuestionsScreen.kt:34-42 | the loaded forms when there are any, else `questionCount` new blank forms of the given size |
| CreateQuestions.EditText | app/src/main/java/com/example/quizandroid/ui/CreateQuestionsScreen.kt:140 | only the statement changes |
| CreateQuestions.EditOption | app/src/main/java/com/example/quizandroid/ui/CreateQuestionsScreen.kt:156-159 | only that option changes; the list keeps its length |
| CreateQuestions.SelectCorrect | app/src/main/java/com/example/quizandroid/ui/CreateQuestionsScreen.kt:149-151 | that option becomes the answer, which is then in range |
| CreateQuestions.CreateQuestionsScreenState.constructor | app/src/main/java/com/example/quizandroid/ui/CreateQuestionsScreen.kt:34-44 | the initial forms, and no exit dialog |
| CreateQuestions.CreateQuestionsScreenState.AskExit | app/src/main/java/com/example/quizandroid/ui/CreateQuestionsScreen.kt:56-64 | back asks for confirmation |
| CreateQuestions.CreateQuestionsScreenState.KeepEditing | app/src/main/java/com/example/quizandroid/ui/CreateQuestionsScreen.kt:115-123 | the confirmation closes and the forms stay |
| CreateQuestions.CreateQuestionsScreenState.Save | app/src/main/java/com/example/quizandroid/ui/CreateQuestionsScreen.kt:89-104 | the forms as they stand with the status, exactly when the button's check passes |
| Login.OnlineName | app/src/main/java/com/example/quizandroid/ui/login/LoginScreen.kt:103 | the profile's name, else "Jogador" |
| Login.LoginScreenState.constructor | app/src/main/java/com/example/quizandroid/ui/login/LoginScreen.kt:71-74 | the prefilled credentials, not loading |
| Login.LoginScreenState.PerformLogin | app/src/main/java/com/example/quizandroid/ui/login/LoginScreen.kt:92-151 | online success saves the session and remembers the credentials; online failure falls back on the vault and logs in exactly when it accepts; a sign-in without a current user leaves the spinner on |
| Login.LoginScreenState.Submit | app/src/main/java/com/example/quizandroid/ui/login/LoginScreen.kt:300-316 | after an online login the same credentials pass the offline test |
| Login.LoginScreenState.AutoPrompt | app/src/main/java/com/example/quizandroid/ui/login/LoginScreen.kt:183-189 | prompts at most once, and only with biometrics on and both credentials remembered |
| Login.LoginScreenState.BiometricSucceeded | app/src/main/java/com/example/quizandroid/ui/login/LoginScreen.kt:153-181 | the fields take the remembered credentials, and an offline attempt then logs in |
| Login.RunLoginScreen | app/src/main/java/com/example/quizandroid/ui/login/LoginScreen.kt:84-321 | over any run of launches, submits and biometric successes that starts with the biometric flag unset, nothing prompts, the flag stays unset and the button is not shown |
| Login.OnlineLoginEnablesOfflineLogin | app/src/main/java/com/example/quizandroid/ui/login/LoginScreen.kt:106-147 | after an online login, the same password with the email in any case passes offline and restores the same user and name |
| Login.OfflineRejects | app/src/main/java/com/example/quizandroid/ui/login/LoginScreen.kt:130-147 | a wrong password, a different email or a missing user id is refused |
| Login.ResetRequest | app/src/main/java/com/example/quizandroid/ui/login/LoginScreen.kt:191-206 | a reset is sent exactly for a valid email, to that email |
| Register.FormValidIff | app/src/main/java/com/example/quizandroid/ui/login/RegisterScreen.kt:61-65 | the form is valid exactly when the name is filled, the email valid, the password at least 6 characters and confirmed |
| Register.NewAccountRow | app/src/main/java/com/example/quizandroid/ui/login/RegisterScreen.kt:96-115 | the new row has no score, no completed quiz and the default avatar |
| Register.RegisterScreenState.constructor | app/src/main/java/com/example/quizandroid/ui/login/RegisterScreen.kt:43-46 | the prefilled fields, not loading |
| Register.RegisterScreenState.PerformRegister | app/src/main/java/com/example/quizandroid/ui/login/RegisterScreen.kt:76-142 | an invalid form does nothing; the local row and session are written exactly when the account was created with a user and the remote profile write succeeded; the spinner stays on exactly for a creation without a current user |
| Register.RegisteredUserIsLoggedIn | app/src/main/java/com/example/quizandroid/ui/login/RegisterScreen.kt:96-115 | after registering, the user is logged in, greeted by name, with a fresh row |
| App.StartScreen | app/src/main/java/com/example/quizandroid/MainActivity.kt:51-55 | home exactly when a session is saved or an account is signed in, otherwise login |
| App.FormValuesOf | app/src/main/java/com/example/quizandroid/MainActivity.kt:95-101 | the statement, options and answer of each question, in order |
| App.FormValuesRoundTrip | app/src/main/java/com/example/quizandroid/MainActivity.kt:92-110 | turning a published batch back into forms gives the forms that were published |
| App.EditAfterPublishReopensForms | app/src/main/java/com/example/quizandroid/MainActivity.kt:92-110 | editing a quiz just published online reopens exactly its forms, in order |
| App.LoadFormStates | app/src/main/java/com/example/quizandroid/MainActivity.kt:95-101 | one new form per question, each distinct, filled from its question |
| App.EditAlternatives | app/src/main/java/com/example/quizandroid/MainActivity.kt:104-105 | the first question's option count, or four when there are none |
| App.MainActivity.constructor | app/src/main/java/com/example/quizandroid/MainActivity.kt:51-66 | the start screen, no dialog, an empty five-question, four-option setup, no edit |
| App.MainActivity.OnLoginSuccess | app/src/main/java/com/example/quizandroid/MainActivity.kt:70 | goes home |
| App.MainActivity.OnNavigateToRegister | app/src/main/java/com/example/quizandroid/MainActivity.kt:71 | goes to registration |
| App.MainActivity.OnRegisterBack | app/src/main/java/com/example/quizandroid/MainActivity.kt:76 | goes back to login |
| App.MainActivity.OnRegisterSuccess | app/src/main/java/com/example/quizandroid/MainActivity.kt:75 | goes home |
| App.MainActivity.OnLogout | app/src/main/java/com/example/quizandroid/MainActivity.kt:81-85 | signs out, clears the session file but not the vault, and goes to login |
| App.MainActivity.OnNavigateToCreateQuiz | app/src/main/java/com/example/quizandroid/MainActivity.kt:86 | shows the setup dialog |
| App.MainActivity.OnDismissSetup | app/src/main/java/com/example/quizandroid/MainActivity.kt:117 | hides the dialog |
| App.MainActivity.OnSetupNext | app/src/main/java/com/example/quizandroid/MainActivity.kt:118-126 | a new quiz with the dialog's figures, no edit, on the authoring screen |
| App.MainActivity.OnPlayQuiz | app/src/main/java/com/example/quizandroid/MainActivity.kt:87-91 | plays that quiz |
| App.MainActivity.OnEditDraft | app/src/main/java/com/example/quizandroid/MainActivity.kt:92-110 | the authoring screen opens as an edit of the draft, on new forms holding its questions as read |
| App.MainActivity.OpenEditor | app/src/main/java/com/example/quizandroid/MainActivity.kt:95-108 | the editor's count, option count and forms are those of the questions |
| App.MainActivity.OnNavigateToRanking | app/src/main/java/com/example/quizandroid/MainActivity.kt:111 | goes to the leaderboard |
| App.MainActivity.OnNavigateToProfile | app/src/main/java/com/example/quizandroid/MainActivity.kt:112 | goes to the profile |
| App.MainActivity.OnNavigateToHome | app/src/main/java/com/example/quizandroid/MainActivity.kt:133 | goes home |
| App.MainActivity.OnCreateBack | app/src/main/java/com/example/quizandroid/MainActivity.kt:166-170 | drops the edit and goes home |
| App.MainActivity.OnSave | app/src/main/java/com/example/quizandroid/MainActivity.kt:171-205 | publishes under the acting user and the session name (else "Membro"), then drops the edit and goes home |
| App.MainActivity.OnPlayBack | app/src/main/java/com/example/quizandroid/MainActivity.kt:217 | goes home |
| App.MainActivity.OnQuizFinished | app/src/main/java/com/example/quizandroid/MainActivity.kt:218-267 | with an acting user, stores the attempt and adds the score and one quiz to the local row; goes home either way |
| App.ReplayKeepsOneAttemptButCountsTwice | app/src/main/java/com/example/quizandroid/MainActivity.kt:218-267 | playing a quiz twice keeps one stored attempt, the second, but the local row counts both scores and two quizzes |
| App.LogoutLeadsToLogin | app/src/main/java/com/example/quizandroid/MainActivity.kt:51-55 | after a logout, a restart shows login unless an account is still signed in |

## Left out

- Concurrency and asynchrony are not modelled. Coroutines, snapshot listeners, `LaunchedEffect` and the
  one-second delay before a page turn become single method calls.
  - A listener's callback is one call with the snapshots as arguments.
  - The spinner shown while a quiz is published (`isPublishing`) is not a field, because publishing always
    succeeds in one call.
- Firebase itself is not modelled. Authentication outcomes, "created with a user", the email pattern's
  verdict and "remote write succeeded" are parameters.
  - The remote `users` document writes are left out: the name and avatar updates, the score increment
    after a quiz, and the registration profile.
  - The persistence settings are left out.
  - The ranking query's server-side ordering and 50-user limit are left out: the screen gets its documents
    as read.
- Home's per-quiz question prefetch (HomeScreen.kt lines 94-96 and 109-111) is left out. It only warms the
  cache, and its result is discarded.
- Profile.ProfileScreenState.ConfirmName: the remote name write is left out.
- Profile.ProfileScreenState.ChooseAvatar: the remote avatar write is left out.
- App.MainActivity.OnQuizFinished: the remote score increment and the toasts are left out.
  - The Room exception paths ("Erro local" in registration, and the swallowed exceptions of the local
    writes) are left out. The local table is a map, and its writes do not fail.
- UI-only output is left out: toasts, dates formatted for display, the donut chart's angles, colours and
  layout.
- Floating point is not modelled.
  - "Erros Média" computes `(done * 0.2).toInt()`. The model uses `done / 5` rounded down. The double
    0.2 is slightly above 0.2, so the product never rounds below an integer it should reach, and the two agree
    for non-negative `Int` counts.
  - The donut chart's fractions are not modelled.
- UserStats.UserDao.UpdateScore: the `Int` columns of the local table are unbounded in the model. It does
  not model SQLite's 64-bit integer storage being read back into a 32-bit `Int` after overflow.
  - The same holds for `Hits`/`Misses` inputs. The Firestore `Long` reads are cut to `Int` explicitly
    (`KotlinStd.ToInt`).
- KotlinStd.ToIntOrNull: only ASCII decimal digits are modelled. `isDigit` also accepts other Unicode
  digits, which `toIntOrNull` would parse.
  - `isWhitespace` is limited to the common ASCII and Unicode space characters.
  - `equals(ignoreCase = true)` folds ASCII letters only.
- The platform biometric prompt is left out. Its success is the method `BiometricSucceeded`, and the
  login it triggers is taken with an explicit `gate` argument.
- The hard-coded default credentials of the login and registration forms are kept only as initial field
  values.
- Repository.QuizRepository.PublishQuiz: when the old questions are read from the cache only
  (`CachedOnly`), the model deletes those the cache lists. Questions missing from that cache survive the
  edit, which is what the code does.
- Models.Quiz: the `isActive` flag is read as stored. The store's object mapper may name the Kotlin
  property `active` after its `isActive()` getter, in which case every read quiz keeps the default `true`
  and the flag-off case of `Home.PublicIsLooserThanListedAsActive` never comes from a read.
- Document ids containing `/` are treated like the empty id: the call fails and nothing is written. The
  model does not follow nested paths.

## Findings

| source | as written | input that shows it | evidently intended | confidence | as-written member | corrected member |
|---|---|---|---|---|---|---|
| app/src/main/java/com/example/quizandroid/ui/ProfileScreen.kt:120 | `userPrefs.saveUser(uid, nameToEdit, userEmail)`: the new name is passed in the email slot and the email in the name slot | rename to "Ana" while the email is "ana@mail.com": the session name becomes "ana@mail.com" and the session email "Ana" | `saveUser(uid, userEmail, nameToEdit)`, matching `saveUser(uid, email, name)` | high; not executed | Profile.NameEditAsWrittenCounterexample | Profile.NameEditKeepsNameAndEmail |

Other behaviour the model reproduces as written, with a lemma stating it:

- **Completed count reset.** The home screen's launch upsert writes `quizzesDone = 0`. It re-runs after
  every score change, so the local completed count is reset (`Home.UpsertAfterScoreUpdateResetsDone`).
  The profile screen masks this by taking the larger of the local count and the count in the store.
- **Launch overwrite.** The home screen collects the local row with an initial value of none, so the
  launch effect's first run writes zero points and the default avatar over the stored row. The stored
  values come back only if the flow shows the stored row before that write lands and that row's score is
  non-zero or its name differs from the saved one, since only the name and the score restart the effect.
  An avatar chosen before any quiz was played is therefore lost on the next visit to the home screen
  (`Home.FirstLaunchOverwritesStoredRow`).
- **Stale completion listeners.** Each snapshot of the quiz listener registers a new listener on the
  user's completed quizzes, and leaving the screen removes only the outer listeners. Every earlier inner
  listener keeps firing with the quiz snapshot it captured, and whichever fires last sets both lists.
  `Home.HomeScreenState.OnQuizzesSnapshot` takes the quiz snapshot as a free argument, so any of those
  captured snapshots can be the one passed.
- **Negative misses.** "Erros" on the home screen can be negative. This happens when a stored score reaches
  ten points per current question plus ten, for example after the quiz was edited down (`Home.HitsAndMisses`).
- **Loose "public" test.** The home screen counts a quiz as public when it is merely not a draft. The
  repository's active listing is stricter (`Home.PublicIsLooserThanListedAsActive`).
- **Publish check.** The check accepts a form with no options at all
  (`CreateQuestions.PublishAcceptsFormWithoutOptions`).
- **Logout keeps the vault.** Logging out leaves the vault's user id in place, so screens that fall back on
  it still act for the previous user (`App.MainActivity.OnLogout`).
