# Cyber Academy — a Dafny model of the learning platform's logic

Cyber Academy is a single-page React application that teaches digital safety. This project models its logic:

- **The catalog.** Topics are arranged in a skill tree of three difficulty tiers. Each topic holds lessons, and each lesson is a sequence of slides: intro, theory, fact, interactive and outtro.
- **The lesson player.** It walks a learner through a lesson's slides. When the learner reaches the outtro slide, the lesson is recorded in a persistent progress store, which keeps the completed lessons, XP and a level.
- **The mini-games.** Interactive slides embed a mini-game, such as a password builder, a phishing chat, a fake Wi-Fi hotspot or a deepfake call. Six games are registered in the interactive slide's variant table (InteractiveSlide.jsx:9-16), so a lesson can only reach those six. Ten more games ship in the same folder but are not registered; each is modelled on its own. The games reach the player's `onComplete` in different ways:
  - PasswordBuilder and TermSorter have their own button, shown at full strength or once every term is sorted.
  - ChatSimulation and WifiSimulator have their own footer, locked until the game is won.
  - CryptoScanner has no footer: each click on the real token calls `onComplete` after a delay.
  - TotpSimulator uses the shared navigation footer, unlocked on success.
  - Among the unregistered games, CryptoTransactor, DataBroker, DeepfakeTimeline, EmailInspector, ImageComparison, ImageQuiz and SocialDetective unlock the shared footer once won. MediaVerificationQuiz unlocks it when the quiz is finished, whatever the score.
  - DeepfakeCall calls `onComplete` directly when the learner hangs up safely. Its footer is unlocked only by the `isCompleted` property it is given.
  - EmailInspector_fixed has its own completion button.

## How the model is built

- **Pure code becomes functions.** Content normalisation, the skill-tree and topic-page unlock rules, slide dispatch and the navigation footer are pure functions with named results. Contracts and lemmas relate each function to the rule it implements.
- **Stateful code becomes a class.** The store, the lesson player and every mini-game keep state that their handlers update step by step. Each becomes a `class` whose fields are the component's state.
  - A state datatype holds the same fields as a value, and a pure transition function per handler gives the new value.
  - Each method promises that its new `State()` is the transition function applied to the old one.
  - The properties of a game are proved as lemmas about the transition functions: invariants they keep, what a sequence of clicks achieves, when the footer unlocks.
- **External effects become parameters or methods.**
  - React timers are methods that the environment calls. The `setInterval` callbacks of DataBroker, DeepfakeCall and TotpSimulator are `Tick`.
  - A `setTimeout` with an effect is a method too, and a counter in the game's state records how many of its calls are still pending: CryptoScanner's `TimerFires` with `timers`, DataBroker's `ClearSelection` with `clears`, ImageComparison's `FlashEnds` with `flashes`, and TermSorter's `ClearFeedback` with `clears`. The chat keeps instead a queue of the replies still waiting for their answer, resolved by `ResolveNext`.
  - DeepfakeCall's `setTimeout` has an empty callback, so it is not modelled.
  - Randomness (`Math.random`) and the clock (`Date.now`) are parameters.
  - Whether a button is on screen becomes a method precondition. Where an overlay covers controls or a screen hides a button, as in the Wi-Fi game and the crypto transfer, a click step on the state makes a control that is not on screen do nothing.
  - The lesson player's handlers are closures of one render. Each handler method takes the slide index that render saw, because a game's delayed `onComplete` can still call a closure after the cursor has moved on.
  - The application's topic list and the store query `isTopicStarted` are function parameters.

Modules follow the source files:

| module | source |
|---|---|
| `ProgressStore` | `src/store/useProgressStore.js` |
| `Content`, `Lessons` | the slide, lesson and catalog types, and the catalog constant of `src/data/lessons.js` |
| `Topics` | the topic type and the lookup `TopicPage` makes in it |
| `LessonPage` | `src/pages/LessonPage.jsx` |
| `TheorySlide`, `IntroSlide`, `FactSlide`, `OuttroSlide`, `InteractiveSlide`, `LessonNavigation` | the slide components |
| `SlideText` | the `cleanContent` normalisation shared by three slides |
| `GameNav` | `InteractiveNavigation.jsx`, and how the games pass their props to it |
| `SkillTree` | `src/pages/SkillTreePage.jsx` |
| `TopicPage` | `src/pages/TopicPage.jsx` |
| one module per mini-game | `interactives/*.jsx` (`EmailInspectorFixed` is `EmailInspector_fixed.jsx`) |
| `Common` | shared helpers |

## Model

| member | source | states |
|---|---|---|
| ProgressStore.LevelOf | src/store/useProgressStore.js:24 | the level is the one whose 100-XP band contains the XP total, so it is 1 or more for non-negative XP |
| ProgressStore.ApplyAddXp | src/store/useProgressStore.js:20-26 | adding XP changes only XP and level, and the level follows the new total |
| ProgressStore.ApplyCompleteLesson | src/store/useProgressStore.js:28-43 | a lesson already completed leaves the state unchanged; a new one is appended at the end, adds exactly 50 XP and recomputes the level; afterwards the lesson is recorded |
| ProgressStore.ApplyReset | src/store/useProgressStore.js:61 | reset empties topic progress and completed lessons and sets XP 0 and level 1 |
| ProgressStore.TopicProgressOf | src/store/useProgressStore.js:46-59 | 0 when the lesson total is missing or 0, and, as written, 0 for every input |
| ProgressStore.CountPrefixed | src/store/useProgressStore.js:49-53 | the discarded count of completed ids starting with the topic id is at most the number of completed lessons |
| ProgressStore.CompleteLessonIdempotent | src/store/useProgressStore.js:30 | completing the same lesson twice equals completing it once |
| ProgressStore.ResetIdempotent | src/store/useProgressStore.js:61 | reset is idempotent and yields the initial state |
| ProgressStore.InitialCoherent | src/store/useProgressStore.js:8-17 | the initial state has the level its XP gives and no duplicate lesson |
| ProgressStore.ApplyKeepsCoherent | src/store/useProgressStore.js:20-43 | each action keeps level == floor(xp/100)+1 and keeps the completed list free of duplicates |
| ProgressStore.RunKeepsCoherent | src/store/useProgressStore.js:14-17 | every sequence of actions from a coherent state ends coherent |
| ProgressStore.LessonOnlyXp | src/store/useProgressStore.js:35 | with only completions and resets, XP is exactly 50 per completed lesson |
| ProgressStore.GrowingRunMonotone | src/store/useProgressStore.js:22 | with no reset and no negative award, XP never decreases and no completed lesson is lost |
| ProgressStore.CompleteIgnoresTopic | src/store/useProgressStore.js:28 | the topic id argument of completeLesson has no effect |
| ProgressStore.Store.constructor | src/store/useProgressStore.js:8-17 | a new store holds the initial, coherent state |
| ProgressStore.Store.AddXp | src/store/useProgressStore.js:20-26 | the store's new state is the addXp reducer's result, and it stays coherent |
| ProgressStore.Store.CompleteLesson | src/store/useProgressStore.js:28-43 | the store's new state is the completeLesson reducer's result, and it stays coherent |
| ProgressStore.Store.ResetProgress | src/store/useProgressStore.js:61 | the store is back in its initial state |
| Content.TopicIds | src/data/lessons.js:1-2 | the catalog's topic keys, in order |
| Content.LessonsOf | src/pages/TopicPage.jsx:13 | the lessons of a topic key, or none exactly when no entry has that key |
| Content.LessonsOrEmpty | src/pages/TopicPage.jsx:13 | a missing topic entry reads as an empty lesson list |
| Content.FindLesson | src/pages/LessonPage.jsx:31 | a lesson with the id, or none exactly when no lesson has it |
| Lessons.AllLessons | src/data/lessons.js:1-203 | a lesson is listed exactly when some topic entry of the catalog holds it; an empty catalog lists none |
| Lessons.AllLessonsAppend | src/data/lessons.js:1-203 | the lessons of two catalogs joined are the lessons of the first followed by those of the second, and one entry lists exactly its own lessons |
| Lessons.LessonIds | src/data/lessons.js:4 | the lesson ids, position by position |
| Lessons.AllLessonsOfCatalog | src/data/lessons.js:1-203 | the catalog holds exactly the five lessons, in order |
| Lessons.CatalogLessonIds | src/data/lessons.js:4 | the five lesson ids are ch-lesson-1, ch-lesson-2, lesson-1, wifi-lesson-1 and crypto-lesson-1, and they are pairwise distinct |
| Lessons.CatalogWellFormed | src/data/lessons.js:1-203 | every lesson has only known slide types, only registered game variants, and, if non-empty, exactly one outtro, as its last slide |
| Lessons.ChLesson1WellFormed | src/data/lessons.js:3-90 | the first cyber-hygiene lesson is well formed |
| Lessons.ChLesson2WellFormed | src/data/lessons.js:91-99 | the empty second lesson is well formed |
| Lessons.PhishingLesson1WellFormed | src/data/lessons.js:102-137 | the phishing lesson is well formed |
| Lessons.WifiLesson1WellFormed | src/data/lessons.js:140-168 | the Wi-Fi lesson is well formed |
| Lessons.CryptoLesson1WellFormed | src/data/lessons.js:171-199 | the crypto lesson is well formed |
| Lessons.CatalogTopicIds | src/data/lessons.js:1-2 | the five topic keys, pairwise distinct |
| Lessons.SlideIdsRepeat | src/data/lessons.js:11 | "slide-1" names a slide in several lessons, so a slide id is not a global key |
| Lessons.EmptyLesson | src/data/lessons.js:96-98 | ch-lesson-2 is found and has no slides |
| Lessons.EmptyTopic | src/data/lessons.js:201 | digital-footprint has an empty lesson list |
| Topics.FindTopic | src/pages/TopicPage.jsx:12 | the first topic with the id, or none exactly when no topic has it |
| LessonPage.ComponentFor | src/pages/LessonPage.jsx:13-19 | each of the four known slide types selects its component, and every other type selects the theory slide |
| LessonPage.FindInCatalog | src/pages/LessonPage.jsx:30-31 | a lesson of the topic with the lesson id, or none exactly when the topic's lessons (empty if the topic is unknown) do not hold it |
| LessonPage.Route | src/pages/LessonPage.jsx:30-52 | a topic key found only on Object.prototype throws; otherwise an unknown lesson redirects to its topic page, a lesson with no slides shows the under-construction page whose close goes back to the topic, and any other found lesson plays |
| LessonPage.CardOpensItsLesson | src/pages/LessonPage.jsx:30-52 | an open card of the topic page links to a route the lesson page resolves, without redirect or throw, to a lesson with the card's id, and to the card's own lesson when no earlier lesson shares its id |
| LessonPage.NextIndex | src/pages/LessonPage.jsx:57-61 | the cursor moves forward by one except at the last slide, and stays in range |
| LessonPage.PrevIndex | src/pages/LessonPage.jsx:63-67 | the cursor moves back by one except at the first slide, and stays in range |
| LessonPage.ProgressOf | src/pages/LessonPage.jsx:55 | progress is (index+1)/len, above 0 and at most 1, and it is full exactly on the last slide |
| LessonPage.Forward | src/pages/LessonPage.jsx:57-61 | any number of forward steps stays in range |
| LessonPage.ForwardReachesEnd | src/pages/LessonPage.jsx:57-61 | k forward steps reach index i+k, capped at the last slide |
| LessonPage.AfterNext | src/pages/LessonPage.jsx:57-61 | a handleNext closure tests the index of its own render and advances the live index; from the render on screen it is the guarded next step |
| LessonPage.AfterPrevious | src/pages/LessonPage.jsx:63-67 | a handlePrevious closure tests the index of its own render and steps the live index back; from the render on screen it is the guarded previous step |
| LessonPage.StaleCompletionOvershoots | src/pages/LessonPage.jsx:57-77 | two calls of one render's onNext on the next-to-last slide move the cursor one past the last slide |
| LessonPage.CryptoLessonGoesBlank | src/components/features/lesson-slides/interactives/CryptoScanner.jsx:28-33 | in crypto-lesson-1, two real-token clicks leave the player at index 3 of 3 slides, rendering nothing, with slide 1 marked completed |
| LessonPage.RenderSlide | src/pages/LessonPage.jsx:80-107 | the slide view is the one the type selects, with the type's fallback to theory |
| LessonPage.Player.constructor | src/pages/LessonPage.jsx:26-27 | the player starts on slide 0 with no completed interactive |
| LessonPage.Player.Current | src/pages/LessonPage.jsx:54 | the current slide, or none exactly when the index is off the slides |
| LessonPage.Player.Props | src/pages/LessonPage.jsx:82-107 | canGoPrevious is exactly index > 0, and isCompleted is exactly membership of the index in the completed interactives |
| LessonPage.Player.View | src/pages/LessonPage.jsx:79-107 | nothing is rendered exactly when the index is off the slides; otherwise the slide's component, an interactive or outtro view exactly for those types |
| LessonPage.Player.Progress | src/pages/LessonPage.jsx:55 | the player's bar is above 0 and full exactly on the last slide |
| LessonPage.Player.HandleNext | src/pages/LessonPage.jsx:57-61 | the index becomes what the handleNext of the given render makes of it, and the completed interactives are unchanged |
| LessonPage.Player.HandlePrevious | src/pages/LessonPage.jsx:63-67 | the index becomes what the handlePrevious of the given render makes of it, and the completed interactives are unchanged |
| LessonPage.Player.HandleInteractiveComplete | src/pages/LessonPage.jsx:73-77 | the index of the render the closure came from is added to the completed interactives, then that render's handleNext runs on the live index |
| LessonPage.Player.HandleComplete | src/pages/LessonPage.jsx:69-71 | the store records the lesson through its guarded completeLesson |
| LessonPage.Player.Fire | src/pages/LessonPage.jsx:97-107 | a callback handed out by a given render does what that render wired it to: next on an interactive slide marks that slide and advances, next elsewhere advances, previous goes back, complete records the lesson, close and navigation leave for their path |
| LessonPage.Player.MountCurrent | src/components/features/lesson-slides/OuttroSlide.jsx:10-12 | mounting an outtro completes the lesson in the store; any other slide, or none, leaves the store alone |
| LessonPage.RemountAwardsNothing | src/components/features/lesson-slides/OuttroSlide.jsx:10-12 | mounting the outtro again awards no further XP |
| LessonPage.SkipCompletes | src/components/features/lesson-slides/InteractiveSlide.jsx:29-34 | an unregistered variant shows the fallback, whose skip is the player's next callback |
| LessonPage.GameNotToldCompleted | src/components/features/lesson-slides/InteractiveSlide.jsx:18-27 | a game is given no previous callback, no canGoPrevious and no isCompleted |
| LessonPage.IntroExit | src/components/features/lesson-slides/IntroSlide.jsx:48 | in the player, the intro's left button goes back when it can and closes the lesson otherwise |
| TheorySlide.Render | src/components/features/lesson-slides/TheorySlide.jsx:6-14 | content is required; the text is the normalised content, is its own normalisation, and is empty for blank content; the only action is next |
| TheorySlide.RenderedParagraphs | src/components/features/lesson-slides/TheorySlide.jsx:10-14 | the shown text splits into the non-empty trimmed lines of the content, separated by empty lines |
| IntroSlide.Render | src/components/features/lesson-slides/IntroSlide.jsx:6-57 | the text is the normalised content (empty when absent); the left button goes back when possible and closes otherwise; the right button always goes forward |
| FactSlide.Render | src/components/features/lesson-slides/FactSlide.jsx:6-73 | the text is the normalised content (empty when absent); previous exists only when possible; next always goes forward |
| OuttroSlide.TopicPath | src/components/features/lesson-slides/OuttroSlide.jsx:65-68 | the path is "/topic/" followed by the topic id |
| OuttroSlide.Render | src/components/features/lesson-slides/OuttroSlide.jsx:14-68 | the content is shown as it is, empty when absent, and the only action goes back to the topic |
| OuttroSlide.Outtro.constructor | src/components/features/lesson-slides/OuttroSlide.jsx:7-9 | a freshly mounted outtro has not run its effect |
| OuttroSlide.Outtro.RunEffects | src/components/features/lesson-slides/OuttroSlide.jsx:10-12 | the mount effect fires onComplete exactly once |
| InteractiveSlide.IdOf | src/components/features/lesson-slides/InteractiveSlide.jsx:9-16 | each registered game has one of the registered ids |
| InteractiveSlide.Lookup | src/components/features/lesson-slides/InteractiveSlide.jsx:9-18 | a variant is found exactly when it is one of the six ids, and it is the game with that id |
| InteractiveSlide.Render | src/components/features/lesson-slides/InteractiveSlide.jsx:18-35 | a registered variant gets onComplete = onNext and the slide's data and labels unchanged; any other shows the fallback, whose skip calls onNext |
| InteractiveSlide.VariantTable | src/components/features/lesson-slides/InteractiveSlide.jsx:9-16 | exactly six distinct ids, and id and game determine each other |
| InteractiveSlide.ForwardIsOnNext | src/components/features/lesson-slides/InteractiveSlide.jsx:19-34 | every way forward out of the slide is the player's next callback |
| LessonNavigation.Completed | src/components/features/lesson-slides/LessonNavigation.jsx:10 | isCompleted defaults to true |
| LessonNavigation.Render | src/components/features/lesson-slides/LessonNavigation.jsx:20-72 | previous exists exactly when canGoPrevious; home replaces next whatever isCompleted is; otherwise next is disabled unless completed and calls onNext only then |
| LessonNavigation.ForwardGate | src/components/features/lesson-slides/LessonNavigation.jsx:48-54 | next calls a callback exactly when home is off, the footer is completed and that callback is onNext |
| LessonNavigation.DefaultIsCompleted | src/components/features/lesson-slides/LessonNavigation.jsx:10 | leaving isCompleted out renders like passing true |
| GameNav.Truthy | src/components/features/lesson-slides/interactives/InteractiveNavigation.jsx:5-7 | an optional flag counts only when it is present and true |
| GameNav.Footer | src/components/features/lesson-slides/interactives/InteractiveNavigation.jsx:5-7 | a game's footer has previous only when canGoPrevious is truthy, and its next calls onComplete exactly when the game says it is unlocked |
| GameNav.NoPreviousInLesson | src/components/features/lesson-slides/InteractiveSlide.jsx:27 | inside a lesson, a game's footer never shows previous |
| SlideText.TrimStart | src/components/features/lesson-slides/TheorySlide.jsx:11 | removes leading whitespace: the result starts with a non-space and is empty for a blank line |
| SlideText.TrimEnd | src/components/features/lesson-slides/TheorySlide.jsx:11 | removes trailing whitespace |
| SlideText.Trim | src/components/features/lesson-slides/TheorySlide.jsx:11 | trim never lengthens a line |
| SlideText.TrimIsTrimmed | src/components/features/lesson-slides/TheorySlide.jsx:11 | a trimmed line has no whitespace at either end |
| SlideText.TrimKeepsLine | src/components/features/lesson-slides/TheorySlide.jsx:10-11 | trimming a line without a line break yields none |
| SlideText.TrimOfTrimmed | src/components/features/lesson-slides/TheorySlide.jsx:11 | trimming a trimmed line changes nothing |
| SlideText.Split | src/components/features/lesson-slides/TheorySlide.jsx:10 | splitting on "\n" gives at least one piece, none containing "\n" |
| SlideText.TrimAll | src/components/features/lesson-slides/TheorySlide.jsx:11 | one trimmed line per line |
| SlideText.NonEmpty | src/components/features/lesson-slides/TheorySlide.jsx:13 | keeps exactly the lines that are not empty, never adds one, and leaves a list without empty lines as it is |
| SlideText.NonEmptyAppend | src/components/features/lesson-slides/TheorySlide.jsx:13 | dropping empty lines from two joined lists is dropping them from each and joining, so the kept lines stay in their order |
| SlideText.Lines | src/components/features/lesson-slides/TheorySlide.jsx:10-12 | the kept lines are non-empty, trimmed and free of line breaks |
| SlideText.SplitJoin | src/components/features/lesson-slides/TheorySlide.jsx:13 | joining lines without line breaks on "\n\n" and splitting again gives the lines with an empty line between each pair |
| SlideText.CleanSegments | src/components/features/lesson-slides/TheorySlide.jsx:8-14 | the result is empty exactly when no line survives; otherwise its "\n\n"-separated segments are exactly the surviving lines |
| SlideText.EmptyLines | src/components/features/lesson-slides/TheorySlide.jsx:8-14 | the empty content has no lines |
| SlideText.CleanIdempotent | src/components/features/lesson-slides/TheorySlide.jsx:8-14 | normalising twice equals normalising once |
| SlideText.CleanSingleParagraph | src/components/features/lesson-slides/TheorySlide.jsx:8-14 | a single trimmed non-empty line is left as it is |
| SlideText.CleanBlank | src/components/features/lesson-slides/TheorySlide.jsx:8-14 | content made only of whitespace normalises to "" |
| SlideText.CleanOrEmpty | src/components/features/lesson-slides/IntroSlide.jsx:7-13 | absent content normalises to "", present content as usual |
| SkillTree.Tier | src/pages/SkillTreePage.jsx:14-20 | a tier holds exactly the topics of that difficulty |
| SkillTree.TierAppend | src/pages/SkillTreePage.jsx:14-20 | a tier keeps the topic list's order: the tier of a concatenation is the concatenation of tiers |
| SkillTree.Tiers | src/pages/SkillTreePage.jsx:14-22 | three tiers, in the order easy, medium, hard |
| SkillTree.TiersPartition | src/pages/SkillTreePage.jsx:14-22 | a topic with one of the three difficulties lies in exactly its own tier |
| SkillTree.AnyStarted | src/pages/SkillTreePage.jsx:94-97 | some topic of the tier is started |
| SkillTree.TierUnlocked | src/pages/SkillTreePage.jsx:92-98 | the first tier is always open, and a later one exactly when some topic of the tier before it is started |
| SkillTree.EmptyTierBlocks | src/pages/SkillTreePage.jsx:90-97 | an empty previous tier leaves the next tier locked |
| SkillTree.NodeStatus | src/pages/SkillTreePage.jsx:132-134 | completed exactly at progress 100, even in a locked tier; otherwise active in an unlocked tier and locked in a locked one |
| SkillTree.FirstIncomplete | src/pages/SkillTreePage.jsx:50-56 | the first topic of the tier below 100, or none exactly when every topic is at 100 |
| SkillTree.NextFromSound | src/pages/SkillTreePage.jsx:39-61 | an id returned by the scan names a topic below 100 in an unlocked tier |
| SkillTree.NextFromNone | src/pages/SkillTreePage.jsx:44-49 | if the scan returns nothing while some topic in a later tier is below 100, a non-empty locked tier stopped it |
| SkillTree.NextUnlockSound | src/pages/SkillTreePage.jsx:39-61 | nextUnlockId names a topic in an unlocked tier whose progress is below 100 |
| SkillTree.ZeroProgress | src/pages/SkillTreePage.jsx:12-61 | with every progress at 0 (the one-argument store call), the next topic is the first easy one |
| SkillTree.RenderNodes | src/pages/SkillTreePage.jsx:126-142 | one node per topic, with the status, progress, next marker and link to /topic/{id} |
| SkillTree.Render | src/pages/SkillTreePage.jsx:88-142 | three tiers; an empty tier is not rendered; otherwise its nodes carry the tier's unlock state |
| SkillTree.NextInUnlockedTier | src/pages/SkillTreePage.jsx:54-58 | the topic marked next is below 100 and, with unique ids, sits in an unlocked tier |
| SkillTree.TierOrderDistinct | src/pages/SkillTreePage.jsx:22 | the three difficulties are distinct |
| SkillTree.NextIsActive | src/pages/SkillTreePage.jsx:126-134 | the node marked next is never completed, and with unique ids it is active |
| TopicPage.LessonPathInjective | src/pages/TopicPage.jsx:57 | for topic ids without a "/", two lesson links are equal exactly when they name the same topic and the same lesson, so the route reads back the pair the link was built from |
| TopicPage.RenderCards | src/pages/TopicPage.jsx:41-57 | one card per lesson; completed exactly when its id is recorded; lesson 0 open and lesson i>0 locked exactly when lesson i-1 is not recorded; a locked card does nothing, an open one navigates to the lesson |
| TopicPage.Render | src/pages/TopicPage.jsx:12-21 | an unknown topic shows "not found"; a topic with no catalog entry has no lesson cards |
| TopicPage.FirstOpen | src/pages/TopicPage.jsx:49-57 | the first lesson is never locked and opens its lesson |
| TopicPage.UnlockMonotone | src/pages/TopicPage.jsx:42-49 | recording more lessons never locks an open lesson or un-completes a completed one |
| TopicPage.CompletingOpensNext | src/pages/TopicPage.jsx:49 | completing a lesson opens the following one |
| TopicPage.IsLockedAgrees | src/pages/TopicPage.jsx:43-49 | the unused isLocked implies actuallyLocked, and differs from it only by the "intro" exemption |
| PasswordBuilder.WordBreaks | src/components/features/lesson-slides/interactives/PasswordBuilder.jsx:21-23 | the count of letter-run to non-letter-run changes is at most the length |
| PasswordBuilder.JsLength | src/components/features/lesson-slides/interactives/PasswordBuilder.jsx:11-21 | the length JavaScript reports: at least the number of characters and at most twice it, 0 exactly for the empty password, and the number of characters when none lies outside the Basic Multilingual Plane |
| PasswordBuilder.LengthBonus | src/components/features/lesson-slides/interactives/PasswordBuilder.jsx:11-14 | the cumulative length bonus: 0, 5, 15, 35 or 75 by the length thresholds 1, 8, 12 and 20 |
| PasswordBuilder.Strength | src/components/features/lesson-slides/interactives/PasswordBuilder.jsx:9-26 | strength lies in [0, 100], is 0 exactly for the empty password, and is 100 exactly when the raw sum reaches 100 |
| PasswordBuilder.StrengthMonotone | src/components/features/lesson-slides/interactives/PasswordBuilder.jsx:9-26 | appending a character never lowers strength |
| PasswordBuilder.StrengthMonotonePrefix | src/components/features/lesson-slides/interactives/PasswordBuilder.jsx:9-26 | extending a password never lowers strength |
| PasswordBuilder.LengthAloneIsNotEnough | src/components/features/lesson-slides/interactives/PasswordBuilder.jsx:11-23 | without capitals, digits, specials or a passphrase, strength is the length bonus and stays at or below 75 |
| PasswordBuilder.Render | src/components/features/lesson-slides/interactives/PasswordBuilder.jsx:28-90 | the meter shows the strength, and the button calling onComplete is enabled exactly at 100 |
| PasswordBuilder.LongMixedIsComplete | src/components/features/lesson-slides/interactives/PasswordBuilder.jsx:9-26 | a 20-character password with a capital and a digit needs a special or a passphrase to reach 100, and reaches 95 without them |
| PasswordBuilder.EmojiCountsTwice | src/components/features/lesson-slides/interactives/PasswordBuilder.jsx:11-12 | six letters and an emoji have length 8 and earn the 8-character bonus, strength 15 |
| TotpSimulator.Digits | src/components/features/lesson-slides/interactives/TotpSimulator.jsx:45 | keeps only the ASCII digits, and leaves a digit string as it is |
| TotpSimulator.Sanitize | src/components/features/lesson-slides/interactives/TotpSimulator.jsx:45 | the input becomes its first six digits: only digits, at most six |
| TotpSimulator.SanitizeFixes | src/components/features/lesson-slides/interactives/TotpSimulator.jsx:45 | an already sanitised input is a fixed point |
| TotpSimulator.SanitizeIdempotent | src/components/features/lesson-slides/interactives/TotpSimulator.jsx:45 | sanitising twice equals sanitising once |
| TotpSimulator.ToDecimal | src/components/features/lesson-slides/interactives/TotpSimulator.jsx:23 | a number's decimal digits |
| TotpSimulator.DecimalLength | src/components/features/lesson-slides/interactives/TotpSimulator.jsx:23 | a number between 10^k and 10^(k+1) has k+1 digits |
| TotpSimulator.GenerateCode | src/components/features/lesson-slides/interactives/TotpSimulator.jsx:22-24 | a drawn code always has exactly six digits |
| TotpSimulator.NextTime | src/components/features/lesson-slides/interactives/TotpSimulator.jsx:30-37 | a tick counts down by one and restarts at 30 when 1 or less is left |
| TotpSimulator.Totp.constructor | src/components/features/lesson-slides/interactives/TotpSimulator.jsx:15-24 | 30 seconds, a drawn code, empty input, no error, and success only for a completed game |
| TotpSimulator.Totp.Tick | src/components/features/lesson-slides/interactives/TotpSimulator.jsx:26-41 | while running (not won, not completed) the clock counts down and a new code is drawn as it wraps; otherwise nothing changes; the clock stays within 1..30 |
| TotpSimulator.Totp.HandleChange | src/components/features/lesson-slides/interactives/TotpSimulator.jsx:44-57 | the input is sanitised; six wrong digits set the error and anything else clears it; six right digits win; a win is never undone |
| TotpSimulator.Totp.Nav | src/components/features/lesson-slides/interactives/TotpSimulator.jsx:185-191 | next calls onComplete exactly on success |
| TotpSimulator.TypingTheCodeSolves | src/components/features/lesson-slides/interactives/TotpSimulator.jsx:45 | a six-digit code after any non-digit noise sanitises to the code itself |
| TotpSimulator.DigitsAppend | src/components/features/lesson-slides/interactives/TotpSimulator.jsx:45 | digit filtering distributes over concatenation |
| TermSorter.BucketId | src/components/features/lesson-slides/interactives/TermSorter.jsx:117 | the two drop zones are "safe" and "unsafe" |
| TermSorter.Ids | src/components/features/lesson-slides/interactives/TermSorter.jsx:109 | item ids, position by position |
| TermSorter.Find | src/components/features/lesson-slides/interactives/TermSorter.jsx:114 | the item with the id, or none exactly when no item has it |
| TermSorter.Without | src/components/features/lesson-slides/interactives/TermSorter.jsx:119 | filtering never adds items |
| TermSorter.WithoutMembers | src/components/features/lesson-slides/interactives/TermSorter.jsx:119 | the filter keeps exactly the items with another id |
| TermSorter.WithoutOne | src/components/features/lesson-slides/interactives/TermSorter.jsx:119 | with distinct ids, the filter removes exactly the one item with the id |
| TermSorter.WithoutAbsent | src/components/features/lesson-slides/interactives/TermSorter.jsx:119 | filtering by an absent id changes nothing |
| TermSorter.WithoutKeepsNoDup | src/components/features/lesson-slides/interactives/TermSorter.jsx:119 | filtering keeps the ids distinct |
| TermSorter.DropConserves | src/components/features/lesson-slides/interactives/TermSorter.jsx:108-132 | every drop end keeps the multiset of all terms, across the pile and both buckets, and keeps the pile's ids distinct |
| TermSorter.DropKeepsSorted | src/components/features/lesson-slides/interactives/TermSorter.jsx:117-121 | every item in a bucket belongs to that bucket's category |
| TermSorter.DropMoves | src/components/features/lesson-slides/interactives/TermSorter.jsx:112-131 | a right drop moves the item from the pile to the end of its bucket; a wrong drop only sets the "wrong" feedback and schedules one more clearing call |
| TermSorter.Clear | src/components/features/lesson-slides/interactives/TermSorter.jsx:130 | one clearing call hides the flash, whichever drop raised it, and leaves the lists alone |
| TermSorter.DropKeepsInv | src/components/features/lesson-slides/interactives/TermSorter.jsx:128-130 | a drop keeps every shown flash backed by a pending clearing call, and never cancels one |
| TermSorter.ClearKeepsInv | src/components/features/lesson-slides/interactives/TermSorter.jsx:130 | a clearing call keeps every shown flash backed by a pending one |
| TermSorter.EarlyClear | src/components/features/lesson-slides/interactives/TermSorter.jsx:103-130 | after a wrong drop, a new drag and a second wrong drop, the first clearing call hides the second flash while another call is still pending |
| TermSorter.Sorter.constructor | src/components/features/lesson-slides/interactives/TermSorter.jsx:80-93 | the pile is the given items or the five defaults, both buckets empty, no flash and no pending call, and the titles fall back to their defaults |
| TermSorter.Sorter.DragStart | src/components/features/lesson-slides/interactives/TermSorter.jsx:103-106 | the dragged item becomes active and the feedback is cleared |
| TermSorter.Sorter.DragEnd | src/components/features/lesson-slides/interactives/TermSorter.jsx:108-132 | the piles become the drop's result, and the active item is cleared |
| TermSorter.Sorter.ClearFeedback | src/components/features/lesson-slides/interactives/TermSorter.jsx:130 | one pending clearing call runs: "wrong" is cleared, one fewer call is pending, and nothing else changes |
| TermSorter.Sorter.View | src/components/features/lesson-slides/interactives/TermSorter.jsx:134-192 | an empty pile shows the button calling onComplete, and otherwise only the head item is offered |
| TermSorter.DefaultItemsSortable | src/components/features/lesson-slides/interactives/TermSorter.jsx:83-89 | the default items have distinct ids and belong to one of the two buckets |
| TermSorter.RightDropShrinks | src/components/features/lesson-slides/interactives/TermSorter.jsx:119 | removing the head item shortens the pile by one |
| ChatSimulation.Initial | src/components/features/lesson-slides/interactives/ChatSimulation.jsx:126-135 | a completed chat starts finished and safe, with one System line after the messages; a fresh one starts with the scenario's messages |
| ChatSimulation.Round | src/components/features/lesson-slides/interactives/ChatSimulation.jsx:147-179 | a choice adds one "me" message with its text and then exactly one System message, which tells the reward (or its fallback) when the round is won and the consequence (or its fallback) when lost; the chat is then finished, won exactly for a correct option |
| ChatSimulation.RetryRestarts | src/components/features/lesson-slides/interactives/ChatSimulation.jsx:181-189 | retry gives back the fresh chat |
| ChatSimulation.CompletedStartsComplete | src/components/features/lesson-slides/interactives/ChatSimulation.jsx:126-191 | a completed chat starts with next unlocked, and a fresh one does not |
| ChatSimulation.DefaultScenarioOneCorrect | src/components/features/lesson-slides/interactives/ChatSimulation.jsx:54-122 | among the built-in scenario's options exactly the refusal is correct |
| ChatSimulation.Input | src/components/features/lesson-slides/interactives/ChatSimulation.jsx:245-299 | options are offered exactly while not finished, and retry only when hacked |
| ChatSimulation.Chat.constructor | src/components/features/lesson-slides/interactives/ChatSimulation.jsx:124-135 | the scenario is the data or the default, and the state is the initial chat |
| ChatSimulation.Chat.HandleChoice | src/components/features/lesson-slides/interactives/ChatSimulation.jsx:147-151 | the reply is posted and its resolution is queued |
| ChatSimulation.Chat.ResolveNext | src/components/features/lesson-slides/interactives/ChatSimulation.jsx:152-178 | the oldest queued reply is resolved |
| ChatSimulation.Chat.HandleRetry | src/components/features/lesson-slides/interactives/ChatSimulation.jsx:181-189 | the chat is reset |
| ChatSimulation.Chat.CloseExplanation | src/components/features/lesson-slides/interactives/ChatSimulation.jsx:351-420 | only the explanation is closed |
| ChatSimulation.Chat.Nav | src/components/features/lesson-slides/interactives/ChatSimulation.jsx:307-329 | next calls onComplete exactly when finished and safe |
| MediaVerificationQuiz.Initial | src/components/features/lesson-slides/interactives/MediaVerificationQuiz.jsx:114-124 | the quiz starts on question 0 with score 0; a completed one has five right answers, a fresh one none |
| MediaVerificationQuiz.FreshInitial | src/components/features/lesson-slides/interactives/MediaVerificationQuiz.jsx:114-124 | a fresh quiz has its score equal to its count of right answers |
| MediaVerificationQuiz.AnswerKeepsFresh | src/components/features/lesson-slides/interactives/MediaVerificationQuiz.jsx:126-135 | an answer records whether it matched and keeps score equal to right answers, with answers one past the current question |
| MediaVerificationQuiz.NextKeepsFresh | src/components/features/lesson-slides/interactives/MediaVerificationQuiz.jsx:137-144 | next advances by one and keeps the quiz consistent |
| MediaVerificationQuiz.ScoreBounds | src/components/features/lesson-slides/interactives/MediaVerificationQuiz.jsx:129-134 | the score stays between 0 and 5, and is full exactly when every answer was right |
| MediaVerificationQuiz.AllWrongFinishes | src/components/features/lesson-slides/interactives/MediaVerificationQuiz.jsx:124 | five wrong answers still finish the quiz and unlock next, with score 0 |
| MediaVerificationQuiz.Quiz.constructor | src/components/features/lesson-slides/interactives/MediaVerificationQuiz.jsx:114-124 | the quiz's initial state |
| MediaVerificationQuiz.Quiz.HandleAnswer | src/components/features/lesson-slides/interactives/MediaVerificationQuiz.jsx:126-135 | the answer is recorded and scored |
| MediaVerificationQuiz.Quiz.HandleNext | src/components/features/lesson-slides/interactives/MediaVerificationQuiz.jsx:137-144 | the quiz moves to the next question |
| MediaVerificationQuiz.Quiz.Nav | src/components/features/lesson-slides/interactives/MediaVerificationQuiz.jsx:337-341 | next calls onComplete exactly when completed or all five are answered, whatever the score |
| EmailInspector.FlagIds | src/components/features/lesson-slides/interactives/EmailInspector.jsx:9 | the red flags' ids, position by position |
| EmailInspector.FindFlag | src/components/features/lesson-slides/interactives/EmailInspector.jsx:17-18 | the red flag with the id, or none exactly when there is none |
| EmailInspector.Click | src/components/features/lesson-slides/interactives/EmailInspector.jsx:13-19 | any clicked id is recorded once (the list grows by one exactly for a new id and keeps its ids distinct), and the matching red flag, if any, is selected |
| EmailInspector.CountMeansAll | src/components/features/lesson-slides/interactives/EmailInspector.jsx:21 | when only red-flag ids were recorded, distinct, the count test means every flag was found |
| EmailInspector.CountIsNotAll | src/components/features/lesson-slides/interactives/EmailInspector.jsx:21 | a click on the sender and one red flag already passes the count test with another red flag unfound |
| EmailInspector.Initial | src/components/features/lesson-slides/interactives/EmailInspector.jsx:9 | a completed inspector starts with every flag found and is complete; a fresh one has found nothing |
| EmailInspector.Inspector.constructor | src/components/features/lesson-slides/interactives/EmailInspector.jsx:6-11 | the inspector's initial state |
| EmailInspector.Inspector.HandleFlagClick | src/components/features/lesson-slides/interactives/EmailInspector.jsx:13-19 | the state is the click's result |
| EmailInspector.Inspector.SelectListed | src/components/features/lesson-slides/interactives/EmailInspector.jsx:186 | a click in the found-flags list selects that flag only if it was found, and records nothing |
| EmailInspector.Inspector.CloseDetails | src/components/features/lesson-slides/interactives/EmailInspector.jsx:222-254 | only the selection is cleared |
| EmailInspector.Inspector.Nav | src/components/features/lesson-slides/interactives/EmailInspector.jsx:205-211 | next calls onComplete exactly when the count test passes |
| EmailInspectorFixed.Inspector.constructor | src/components/features/lesson-slides/interactives/EmailInspector_fixed.jsx:5-9 | the inspector always starts with nothing found |
| EmailInspectorFixed.Inspector.HandleFlagClick | src/components/features/lesson-slides/interactives/EmailInspector_fixed.jsx:12-18 | the same click logic as the other inspector copy |
| EmailInspectorFixed.Inspector.SelectListed | src/components/features/lesson-slides/interactives/EmailInspector_fixed.jsx:185 | a click in the found-flags list selects that flag only if it was found, and records nothing |
| EmailInspectorFixed.Inspector.CloseDetails | src/components/features/lesson-slides/interactives/EmailInspector_fixed.jsx:224-256 | only the selection is cleared |
| EmailInspectorFixed.Inspector.Render | src/components/features/lesson-slides/interactives/EmailInspector_fixed.jsx:204-213 | the button calling onComplete exists exactly when the count test passes |
| EmailInspectorFixed.Clicks | src/components/features/lesson-slides/interactives/EmailInspector_fixed.jsx:12-15 | after a run of clicks, the recorded ids are those recorded before and those clicked, still distinct |
| EmailInspectorFixed.ClickingAllFlags | src/components/features/lesson-slides/interactives/EmailInspector_fixed.jsx:12-20 | clicking every red flag, in any order and with repeats, finds them all, and completes when nothing else was clicked |
| CryptoTransactor.ConfigOf | src/components/features/lesson-slides/interactives/CryptoTransactor.jsx:17-26 | each address and the amount fall back to their defaults; both addresses are non-empty |
| CryptoTransactor.Send | src/components/features/lesson-slides/interactives/CryptoTransactor.jsx:40-46 | success exactly when the field holds the true address, fail otherwise; nothing else changes |
| CryptoTransactor.Report | src/components/features/lesson-slides/interactives/CryptoTransactor.jsx:48-57 | reporting the spoofed address swaps in the true one and fixes the step; any other report fails |
| CryptoTransactor.Act | src/components/features/lesson-slides/interactives/CryptoTransactor.jsx:76-238 | a click on a button the current screen shows is that handler's step; a click on any other button changes nothing |
| CryptoTransactor.StepKeepsInv | src/components/features/lesson-slides/interactives/CryptoTransactor.jsx:28-238 | each click keeps the clipboard empty or spoofed, the field empty on the start screen, the spoofed address in a pasted field before a report, and a fixed or won game on the true address |
| CryptoTransactor.RunKeepsInv | src/components/features/lesson-slides/interactives/CryptoTransactor.jsx:28-238 | every run of clicks keeps that invariant, so a transfer counts as a success only when it went to the true address |
| CryptoTransactor.ReportAlwaysFixes | src/components/features/lesson-slides/interactives/CryptoTransactor.jsx:48-57 | the report button, shown only after a paste and before a fix, always finds the spoofed address and moves to the fixed step with the true one; the fail branch is never reached from it |
| CryptoTransactor.SuccessIsFinal | src/components/features/lesson-slides/interactives/CryptoTransactor.jsx:197-213 | the success screen shows no game button, so no run of clicks leaves it |
| CryptoTransactor.InitialInv | src/components/features/lesson-slides/interactives/CryptoTransactor.jsx:17-26 | the start satisfies the invariant |
| CryptoTransactor.TrustingPlayerLoses | src/components/features/lesson-slides/interactives/CryptoTransactor.jsx:28-169 | the clicks copy, paste, send from the start pay the spoofed address, and fail exactly when the addresses differ |
| CryptoTransactor.CarefulPlayerWins | src/components/features/lesson-slides/interactives/CryptoTransactor.jsx:28-187 | the clicks copy, paste, report, send from the start fix the address and win |
| CryptoTransactor.FixedSendWins | src/components/features/lesson-slides/interactives/CryptoTransactor.jsx:40-187 | on the fixed screen the send button is shown and always succeeds |
| CryptoTransactor.SuccessNeedsReport | src/components/features/lesson-slides/interactives/CryptoTransactor.jsx:28-57 | when the addresses differ, no run without a report ever puts the true address in the field or wins |
| CryptoTransactor.DefaultsDiffer | src/components/features/lesson-slides/interactives/CryptoTransactor.jsx:24-25 | the built-in spoofed and true addresses differ |
| CryptoTransactor.Transactor.constructor | src/components/features/lesson-slides/interactives/CryptoTransactor.jsx:17-26 | the addresses come from the data, and the game starts at the beginning |
| CryptoTransactor.Transactor.HandleCopy | src/components/features/lesson-slides/interactives/CryptoTransactor.jsx:28-97 | the copy button, shown only on the start screen: the spoofed address, never the real one, lands on the clipboard, and the step moves to input |
| CryptoTransactor.Transactor.HandleInputClick | src/components/features/lesson-slides/interactives/CryptoTransactor.jsx:34-129 | the field, clickable on the input and fixed screens until pasted: a non-empty clipboard is pasted once |
| CryptoTransactor.Transactor.HandleSend | src/components/features/lesson-slides/interactives/CryptoTransactor.jsx:40-187 | the send button, shown after a paste or on the fixed screen: the state is send's result, and the invariant is kept |
| CryptoTransactor.Transactor.HandleReport | src/components/features/lesson-slides/interactives/CryptoTransactor.jsx:48-169 | the report button, shown after a paste and before a fix: the state is report's result, and the invariant is kept |
| CryptoTransactor.Transactor.HandleRetry | src/components/features/lesson-slides/interactives/CryptoTransactor.jsx:216-241 | the retry button, shown only on the fail screen: step, field, clipboard and paste flag are back at their start values |
| CryptoTransactor.Transactor.Click | src/components/features/lesson-slides/interactives/CryptoTransactor.jsx:76-241 | any click: the state is the click step's result, a no-op on a button the screen does not show, and the invariant is kept |
| CryptoTransactor.Transactor.Nav | src/components/features/lesson-slides/interactives/CryptoTransactor.jsx:255-259 | next calls onComplete exactly at success |
| CryptoScanner.ExactlyOneReal | src/components/features/lesson-slides/interactives/CryptoScanner.jsx:9-26 | of the two built-in tokens exactly the first is real, and their ids differ |
| CryptoScanner.Select | src/components/features/lesson-slides/interactives/CryptoScanner.jsx:28-34 | the token becomes selected; the real one completes the game and schedules onComplete, a fake one never does |
| CryptoScanner.SelectKeepsInv | src/components/features/lesson-slides/interactives/CryptoScanner.jsx:28-34 | scheduled callbacks imply a complete game |
| CryptoScanner.FireKeepsInv | src/components/features/lesson-slides/interactives/CryptoScanner.jsx:32 | a fired callback keeps that |
| CryptoScanner.CompleteSticks | src/components/features/lesson-slides/interactives/CryptoScanner.jsx:7-31 | complete is never reset |
| CryptoScanner.RealTwiceCallsTwice | src/components/features/lesson-slides/interactives/CryptoScanner.jsx:30-33 | picking the real token twice schedules onComplete twice |
| CryptoScanner.FindToken | src/components/features/lesson-slides/interactives/CryptoScanner.jsx:98 | the token with the id, or none exactly when none has it |
| CryptoScanner.Render | src/components/features/lesson-slides/interactives/CryptoScanner.jsx:89-105 | the success banner shows exactly when complete, the warning exactly while the fake token is selected |
| CryptoScanner.RealThenFakeShowsBoth | src/components/features/lesson-slides/interactives/CryptoScanner.jsx:89-105 | picking the real and then the fake token shows both banners |
| CryptoScanner.Scanner.constructor | src/components/features/lesson-slides/interactives/CryptoScanner.jsx:5-7 | nothing selected, not complete, nothing scheduled |
| CryptoScanner.Scanner.HandleSelect | src/components/features/lesson-slides/interactives/CryptoScanner.jsx:28-34 | the state is the selection's result |
| CryptoScanner.Scanner.TimerFires | src/components/features/lesson-slides/interactives/CryptoScanner.jsx:32 | a scheduled callback fires onComplete |
| WifiSimulator.TrapIffOpen | src/components/features/lesson-slides/interactives/WifiSimulator.jsx:19-53 | in the built-in list a network is a trap exactly when it is open, and two networks share a name but not a kind |
| WifiSimulator.Initial | src/components/features/lesson-slides/interactives/WifiSimulator.jsx:14-17 | VPN and scan off, nothing selected, and success feedback only for a completed game |
| WifiSimulator.Connect | src/components/features/lesson-slides/interactives/WifiSimulator.jsx:55-67 | with VPN on every network gives success; with it off a trap gives error and a safe network a warning |
| WifiSimulator.ConnectUnlocks | src/components/features/lesson-slides/interactives/WifiSimulator.jsx:55-69 | a connection unlocks next exactly with VPN on or on a safe network |
| WifiSimulator.SwitchesKeepFeedback | src/components/features/lesson-slides/interactives/WifiSimulator.jsx:87-128 | the VPN and scan switches never change the feedback or the unlock |
| WifiSimulator.VpnMakesAllSafe | src/components/features/lesson-slides/interactives/WifiSimulator.jsx:58-59 | with VPN on every network in the list succeeds |
| WifiSimulator.Step | src/components/features/lesson-slides/interactives/WifiSimulator.jsx:86-236 | a click on a control a feedback overlay covers, or on a try-again button that is not shown, changes nothing; any other click runs its handler |
| WifiSimulator.UnlockedIsFinal | src/components/features/lesson-slides/interactives/WifiSimulator.jsx:204-235 | once a success or a warning shows, no sequence of clicks on the phone changes the state, so next stays unlocked |
| WifiSimulator.TrapNeedsTryAgain | src/components/features/lesson-slides/interactives/WifiSimulator.jsx:176-201 | on the error screen every click but "try again" is void, so the VPN cannot be switched on after the fact; trying again, switching the VPN on and reconnecting succeeds even on the trap |
| WifiSimulator.CompletedStartsUnlocked | src/components/features/lesson-slides/interactives/WifiSimulator.jsx:16-69 | a completed game starts unlocked, a fresh one locked |
| WifiSimulator.Wifi.constructor | src/components/features/lesson-slides/interactives/WifiSimulator.jsx:13-17 | the game's initial state |
| WifiSimulator.Wifi.HandleConnect | src/components/features/lesson-slides/interactives/WifiSimulator.jsx:55-67 | a click on a network while no overlay covers the list: the state is the connection's result |
| WifiSimulator.Wifi.HandleToggleVpn | src/components/features/lesson-slides/interactives/WifiSimulator.jsx:87 | a click on the uncovered VPN card flips the VPN and nothing else |
| WifiSimulator.Wifi.HandleToggleScan | src/components/features/lesson-slides/interactives/WifiSimulator.jsx:128 | a click on the uncovered scanner switch flips scan mode and nothing else |
| WifiSimulator.Wifi.HandleTryAgain | src/components/features/lesson-slides/interactives/WifiSimulator.jsx:197 | the feedback is cleared |
| WifiSimulator.Wifi.Click | src/components/features/lesson-slides/interactives/WifiSimulator.jsx:86-201 | any click on the phone leaves the state the click step gives |
| WifiSimulator.Wifi.Nav | src/components/features/lesson-slides/interactives/WifiSimulator.jsx:240-260 | next calls onComplete exactly on success or warning |
| DeepfakeCall.Options | src/components/features/lesson-slides/interactives/DeepfakeCall.jsx:64 | the actions on offer are the first dialogue's options, none without dialogue |
| DeepfakeCall.Initial | src/components/features/lesson-slides/interactives/DeepfakeCall.jsx:8-12 | a completed call starts ended, with no result, and a fresh one incoming, 45 seconds on the clock |
| DeepfakeCall.EndCall | src/components/features/lesson-slides/interactives/DeepfakeCall.jsx:53-62 | the call ends; hanging up wins and calls onComplete, any other ending loses |
| DeepfakeCall.Tick | src/components/features/lesson-slides/interactives/DeepfakeCall.jsx:16-23 | an active call loses a second, and at zero it ends as a timeout; otherwise nothing changes |
| DeepfakeCall.Rank | src/components/features/lesson-slides/interactives/DeepfakeCall.jsx:8 | incoming, active and ended are ordered |
| DeepfakeCall.ApplyStep | src/components/features/lesson-slides/interactives/DeepfakeCall.jsx:16-62 | every event keeps the invariant, only moves the status forward, and changes nothing after the call ends |
| DeepfakeCall.RunStep | src/components/features/lesson-slides/interactives/DeepfakeCall.jsx:16-62 | any run of events keeps the invariant and moves the status only forward |
| DeepfakeCall.InitialInv | src/components/features/lesson-slides/interactives/DeepfakeCall.jsx:8-12 | the start satisfies the invariant |
| DeepfakeCall.VerifyOnlyChangesVideo | src/components/features/lesson-slides/interactives/DeepfakeCall.jsx:34-47 | the verification action only switches the video |
| DeepfakeCall.SilenceLoses | src/components/features/lesson-slides/interactives/DeepfakeCall.jsx:16-23 | letting the clock run out ends the active call as a loss |
| DeepfakeCall.Render | src/components/features/lesson-slides/interactives/DeepfakeCall.jsx:118-190 | ringing while incoming, in-call with the options while active, and the win panel exactly after a won call |
| DeepfakeCall.CompletedShowsLoss | src/components/features/lesson-slides/interactives/DeepfakeCall.jsx:177-187 | a completed call reopens showing the loss panel |
| DeepfakeCall.Call.constructor | src/components/features/lesson-slides/interactives/DeepfakeCall.jsx:6-12 | the call's initial state |
| DeepfakeCall.Call.HandleAnswer | src/components/features/lesson-slides/interactives/DeepfakeCall.jsx:25-31 | the state is answering's result |
| DeepfakeCall.Call.HandleHangUp | src/components/features/lesson-slides/interactives/DeepfakeCall.jsx:53-58 | hanging up ends the call and fires onComplete |
| DeepfakeCall.Call.HandleAction | src/components/features/lesson-slides/interactives/DeepfakeCall.jsx:33-51 | the state is the action's result |
| DeepfakeCall.Call.HandleToggleMute | src/components/features/lesson-slides/interactives/DeepfakeCall.jsx:158 | mute flips |
| DeepfakeCall.Call.Tick | src/components/features/lesson-slides/interactives/DeepfakeCall.jsx:16-23 | the state is a clock second's result |
| DeepfakeCall.Call.Nav | src/components/features/lesson-slides/interactives/DeepfakeCall.jsx:193-198 | next calls onComplete exactly when the isCompleted prop is set, whatever the call's result |
| DataBroker.Initial | src/components/features/lesson-slides/interactives/DataBroker.jsx:19-23 | the stream starts empty; a completed game starts won and finished |
| DataBroker.Select | src/components/features/lesson-slides/interactives/DataBroker.jsx:50-62 | ignored once finished; the right profile wins and finishes; a wrong one is selected and its reset scheduled |
| DataBroker.InitialInv | src/components/features/lesson-slides/interactives/DataBroker.jsx:19-23 | the start satisfies the invariant |
| DataBroker.StreamKeepsInv | src/components/features/lesson-slides/interactives/DataBroker.jsx:35-48 | the visible items are always the first streamIndex items, one more per beat until all are shown or the game is finished |
| DataBroker.SelectKeepsInv | src/components/features/lesson-slides/interactives/DataBroker.jsx:50-62 | a pick keeps won exactly when finished, and wins exactly for the right profile or an already won game |
| DataBroker.ResetKeepsInv | src/components/features/lesson-slides/interactives/DataBroker.jsx:60 | a reset never undoes a win |
| DataBroker.FinishedStreamStops | src/components/features/lesson-slides/interactives/DataBroker.jsx:36 | a finished game's stream stands still |
| DataBroker.LateResetClearsWin | src/components/features/lesson-slides/interactives/DataBroker.jsx:53-61 | a wrong pick's late reset clears the winning selection while the game stays won |
| DataBroker.Cards | src/components/features/lesson-slides/interactives/DataBroker.jsx:133-150 | one card per profile, disabled once finished unless chosen, the chosen one showing its verdict |
| DataBroker.Broker.constructor | src/components/features/lesson-slides/interactives/DataBroker.jsx:17-23 | the game's initial state |
| DataBroker.Broker.Tick | src/components/features/lesson-slides/interactives/DataBroker.jsx:35-48 | the state is a stream beat's result |
| DataBroker.Broker.HandleProfileSelect | src/components/features/lesson-slides/interactives/DataBroker.jsx:50-62 | the state is the pick's result |
| DataBroker.Broker.ClearSelection | src/components/features/lesson-slides/interactives/DataBroker.jsx:60 | the selection is cleared |
| DataBroker.Broker.Nav | src/components/features/lesson-slides/interactives/DataBroker.jsx:211-217 | next calls onComplete exactly when won |
| ImageComparison.ArtifactIdsAreTheZones | src/components/features/lesson-slides/interactives/ImageComparison.jsx:7-44 | the four zone ids, distinct |
| ImageComparison.FirstFrom | src/components/features/lesson-slides/interactives/ImageComparison.jsx:63-66 | the first zone from a position on that holds the click, or none exactly when none does |
| ImageComparison.Hit | src/components/features/lesson-slides/interactives/ImageComparison.jsx:63-66 | a hit is the first zone of the list holding the click, and none exactly when no zone holds it |
| ImageComparison.OverlapGoesToTheEyes | src/components/features/lesson-slides/interactives/ImageComparison.jsx:7-66 | a click in both the eye and hairline zones counts for the eyes, the earlier one |
| ImageComparison.Required | src/components/features/lesson-slides/interactives/ImageComparison.jsx:48 | requiredFinds when truthy, otherwise 3 |
| ImageComparison.Initial | src/components/features/lesson-slides/interactives/ImageComparison.jsx:50-55 | a completed game starts with every zone found, a fresh one with none |
| ImageComparison.Click | src/components/features/lesson-slides/interactives/ImageComparison.jsx:57-77 | a new zone is recorded and selected; a found one changes nothing; a miss only starts the wrong flash |
| ImageComparison.ClickGrows | src/components/features/lesson-slides/interactives/ImageComparison.jsx:68-71 | found zones stay among the four and only grow, so completion is never lost |
| ImageComparison.TooManyRequired | src/components/features/lesson-slides/interactives/ImageComparison.jsx:48-80 | requiring more than four makes the game impossible to complete |
| ImageComparison.ThreeCentresComplete | src/components/features/lesson-slides/interactives/ImageComparison.jsx:7-80 | clicks in the eye, teeth and neck zones complete the default game |
| ImageComparison.Comparison.constructor | src/components/features/lesson-slides/interactives/ImageComparison.jsx:46-55 | the image and required count fall back to their defaults, and the game starts in its initial state |
| ImageComparison.Comparison.HandleImageClick | src/components/features/lesson-slides/interactives/ImageComparison.jsx:57-77 | the state is the click's result |
| ImageComparison.Comparison.FlashEnds | src/components/features/lesson-slides/interactives/ImageComparison.jsx:75 | the wrong flash ends |
| ImageComparison.Comparison.ToggleHints | src/components/features/lesson-slides/interactives/ImageComparison.jsx:144 | hints flip |
| ImageComparison.Comparison.Nav | src/components/features/lesson-slides/interactives/ImageComparison.jsx:198-203 | next calls onComplete exactly when completed or enough zones are found |
| DeepfakeTimeline.EventIdsAreTheEvents | src/components/features/lesson-slides/interactives/DeepfakeTimeline.jsx:7-62 | the six events have the six distinct ids 1..6 |
| DeepfakeTimeline.IdAt | src/components/features/lesson-slides/interactives/DeepfakeTimeline.jsx:7-62 | event i has id i+1 |
| DeepfakeTimeline.Initial | src/components/features/lesson-slides/interactives/DeepfakeTimeline.jsx:65-68 | a completed timeline starts with every event viewed, a fresh one with none |
| DeepfakeTimeline.Click | src/components/features/lesson-slides/interactives/DeepfakeTimeline.jsx:70-73 | the event is selected and its id added to the viewed ones |
| DeepfakeTimeline.ClicksView | src/components/features/lesson-slides/interactives/DeepfakeTimeline.jsx:72 | after a run of clicks, the viewed events are those viewed before plus those clicked |
| DeepfakeTimeline.AllViewedMeansEvery | src/components/features/lesson-slides/interactives/DeepfakeTimeline.jsx:75 | the count reaches six exactly when every event was viewed |
| DeepfakeTimeline.FreshClicks | src/components/features/lesson-slides/interactives/DeepfakeTimeline.jsx:66-72 | from a fresh timeline, an event is viewed exactly when it was clicked |
| DeepfakeTimeline.VisitingAllUnlocks | src/components/features/lesson-slides/interactives/DeepfakeTimeline.jsx:70-75 | clicks in any order and with repeats unlock next exactly when every event was clicked |
| DeepfakeTimeline.CoverCount | src/components/features/lesson-slides/interactives/DeepfakeTimeline.jsx:75 | the viewed ids number six exactly when every event was clicked |
| DeepfakeTimeline.MissingOne | src/components/features/lesson-slides/interactives/DeepfakeTimeline.jsx:75 | missing one event keeps the count below six |
| DeepfakeTimeline.ClickKeepsInv | src/components/features/lesson-slides/interactives/DeepfakeTimeline.jsx:66-72 | the viewed events stay among the six and only grow |
| DeepfakeTimeline.Timeline.constructor | src/components/features/lesson-slides/interactives/DeepfakeTimeline.jsx:64-68 | the timeline's initial state |
| DeepfakeTimeline.Timeline.HandleEventClick | src/components/features/lesson-slides/interactives/DeepfakeTimeline.jsx:70-73 | the state is the click's result |
| DeepfakeTimeline.Timeline.Nav | src/components/features/lesson-slides/interactives/DeepfakeTimeline.jsx:208-214 | next calls onComplete exactly when completed or all six were viewed |
| SocialDetective.ClueIds | src/components/features/lesson-slides/interactives/SocialDetective.jsx:9 | the clues' ids, position by position |
| SocialDetective.Initial | src/components/features/lesson-slides/interactives/SocialDetective.jsx:9-10 | a completed game starts with every clue id found, a fresh one with none |
| SocialDetective.Click | src/components/features/lesson-slides/interactives/SocialDetective.jsx:12-17 | the clue's id is added if absent and the clue becomes active |
| SocialDetective.InitialInv | src/components/features/lesson-slides/interactives/SocialDetective.jsx:9 | the start records only clue ids, distinct when the clue ids are |
| SocialDetective.ClickKeepsInv | src/components/features/lesson-slides/interactives/SocialDetective.jsx:12-17 | found clues stay clue ids, distinct, and only grow |
| SocialDetective.AllFoundMeansEvery | src/components/features/lesson-slides/interactives/SocialDetective.jsx:19 | with distinct clue ids, the count test means every clue was found |
| SocialDetective.CompletedOpensFinished | src/components/features/lesson-slides/interactives/SocialDetective.jsx:9-20 | a completed game opens finished, with every clue found |
| SocialDetective.Detective.constructor | src/components/features/lesson-slides/interactives/SocialDetective.jsx:7-10 | the game's initial state |
| SocialDetective.Detective.HandleClueClick | src/components/features/lesson-slides/interactives/SocialDetective.jsx:12-17 | the state is the click's result |
| SocialDetective.Detective.CloseClue | src/components/features/lesson-slides/interactives/SocialDetective.jsx:124-137 | the active clue is closed |
| SocialDetective.Detective.Nav | src/components/features/lesson-slides/interactives/SocialDetective.jsx:151 | next calls onComplete exactly when completed or all clues are found |
| ImageQuiz.FirstCorrect | src/components/features/lesson-slides/interactives/ImageQuiz.jsx:8 | the first option marked correct, or none exactly when none is |
| ImageQuiz.Initial | src/components/features/lesson-slides/interactives/ImageQuiz.jsx:8-12 | a completed quiz starts on the first correct option with feedback shown and correct; a fresh one with nothing |
| ImageQuiz.Select | src/components/features/lesson-slides/interactives/ImageQuiz.jsx:14-55 | while no feedback shows, a pick records the option, its correctness, and shows feedback; afterwards picks change nothing |
| ImageQuiz.FirstPickDecides | src/components/features/lesson-slides/interactives/ImageQuiz.jsx:14-18 | the first pick decides for good, and unlocks next exactly when it was right |
| ImageQuiz.FrozenStaysFrozen | src/components/features/lesson-slides/interactives/ImageQuiz.jsx:55-56 | once feedback shows, no click changes anything |
| ImageQuiz.CompletedOpensUnlocked | src/components/features/lesson-slides/interactives/ImageQuiz.jsx:10-12 | a completed quiz opens unlocked and a fresh one locked |
| ImageQuiz.Quiz.constructor | src/components/features/lesson-slides/interactives/ImageQuiz.jsx:6-12 | the quiz's initial state |
| ImageQuiz.Quiz.HandleOptionClick | src/components/features/lesson-slides/interactives/ImageQuiz.jsx:14-55 | the state is the pick's result |
| ImageQuiz.Quiz.Nav | src/components/features/lesson-slides/interactives/ImageQuiz.jsx:145-151 | next calls onComplete exactly when correct and showing feedback |
| Common.CountTrue | src/components/features/lesson-slides/interactives/MediaVerificationQuiz.jsx:129-134 | the number of true entries, at most the length and equal to it exactly when all are true |
| Common.AppendIfAbsent | src/components/features/lesson-slides/interactives/SocialDetective.jsx:13-15 | appends only an absent element, so the result holds it and stays free of duplicates |
| Common.OrElse | src/components/features/lesson-slides/interactives/CryptoTransactor.jsx:24-26 | JavaScript's or-default for an optional string: the value unless absent or empty, else the fallback |
| Common.CountMeansAll | src/components/features/lesson-slides/interactives/EmailInspector.jsx:21 | a duplicate-free list drawn from a duplicate-free list of ids has its length exactly when it holds every id |

## Left out

- Rendering is out: layout, Tailwind classes, motion and animation, icons, confetti and the markdown renderer. Views are modelled as datatypes that list what is on screen and which callback each control calls.
- The explanation texts, hints and captions of the games are not modelled; their literal strings are only kept where a handler uses them.
- Persistence is out. The zustand `persist` middleware and `localStorage` are browser I/O, so only the in-memory store state is modelled.
- The topic list (`TOPICS`) and the store's `isTopicStarted` are parameters of `SkillTree` and `TopicPage`. The store defines no `isTopicStarted`, and `src/data/topics.js` is not part of this model.
- Store fields that ProfileModal, CompletionModal and XpNotification read but the store never defines are left out. These are levelProgress, isMaxLevel, hasSeenCompletionModal, markCompletionModalSeen, recentXpGain, clearRecentXpGain, isProfileOpen and setProfileOpen. Those components are not part of this model.
- Timers are not modelled as time.
  - Every `setTimeout` and `setInterval` is a method that the environment calls.
  - For the one-shot timers of CryptoScanner, DataBroker, ImageComparison and TermSorter, a pending counter records how many scheduled callbacks are still outstanding. The chat instead keeps a queue of the replies still waiting for their answer, in the order they were chosen.
  - No wall-clock time or delay length is modelled.
- `Math.random` and `Date.now` are not modelled. For `Math.random`, TotpSimulator's `draw` parameter stands for the random part of the drawn code. For `Date.now`, ChatSimulation's `now` parameter gives the message ids.
- TotpSimulator.GenerateCode: the floating-point draw is taken as the integer `Math.floor(Math.random() * 900000)`, so it lies in 0..899999. The code is the decimal digits of 100000 plus the draw.
- The lesson player's progress bar is a floating-point percentage. It is modelled as the ratio (index+1)/len.
- JavaScript numbers are modelled as unbounded integers. None of the counters in the core comes close to the limits of a double.
- ImageComparison: the geometry is left out. A click is given as the set of zones whose circle contains it; the conversion of the pointer position to percent of the image and the floating-point `Math.sqrt` distance test that decide this set are not modelled.
- EmailInspector: the body highlighting (`highlightBody`) and the DOM click test (`handleBodyClick`) are left out. A click on a highlighted span is modelled as a click on that flag's id, and the header click as the id "sender".
- TermSorter: the drag-and-drop library is reduced to a drop event carrying an item id and an optional bucket. The sensors, drag overlay and collision detection are out.
- Video and audio playback in DeepfakeCall and MediaVerificationQuiz are out. Mute only flips its flag, and "verify" only switches the video source field.
- Scrolling effects are out: the chat's and broker's scroll-to-bottom refs.
- Games not registered in the interactive slide's variant table are modelled as they stand, on their own: EmailInspector and its `_fixed` copy, DataBroker, DeepfakeCall, DeepfakeTimeline, ImageComparison, ImageQuiz, MediaVerificationQuiz, SocialDetective and CryptoTransactor. Nothing in the catalog can reach them.
- ImageQuiz: `handleNext` is defined but wired to no element, so it has no method in the model. A wrong pick therefore cannot be undone (`FirstPickDecides`).
- TotpSimulator: the unused `onNext` prop is left out.
- CryptoScanner: the token cards' markup is left out. The Wifi scan mode only flips a flag, and the labels it shows are not modelled.
- PasswordBuilder: the passphrase regular expression `/([a-zA-Z]+[^a-zA-Z]+){3,}/` is modelled as at least three changes from a run of letters to a run of non-letters, which is the same condition. The expression runs over UTF-16 code units, where a character outside the Basic Multilingual Plane is two non-letters; that changes no letter-to-non-letter boundary, so the model tests characters. Only `length` counts code units (`JsLength`).
- TopicPage.Render: a topic whose id is a key found only on `Object.prototype` (such as "constructor") and that has no catalog entry would make `(LESSONS[id] || []).map` throw. The model reads that entry as absent and shows no cards. The topic list is a parameter, so whether such a topic exists is outside the model; the lesson page's own lookup does model the throw (`LessonPage.Route`).
