# Procedural melody and chord generation, modelled in Dafny

The repository generates melodies with a genetic algorithm, builds chord
progressions from a root and a mode, and turns note names into MIDI note
numbers. This project models the pure core of all three and proves
properties about it:

- **melody_generator.py**
  - scale building (`get_notes`);
  - the variation operators `initialize_population`, `crossover` and `mutate`;
  - the scorer `fitness`, with `get_note_index` and `max_score`;
  - diversity: Hamming `distance` and `shared_fitness`;
  - selection: elitist `select_best_with_sharing` and `tournament_selection`;
  - the body of the generation loop of `main`, as a pure step function.
- **chord_generator.py**
  - the tables `NOTE_TO_MIDI`, `scales`, `chord_structures` and `mode_chord_types`;
  - `create_scale`, `generate_chord_progression` and `generate_random_progression`.
- **audio.py**: `note_to_midi_note_number`.

## How the model is built

- **Symbols and melodies.** A melody symbol is `Note(pitch)` or `Rest` (the
  `'REST'` marker). A melody is a sequence of symbols.
- **Exceptions.** An exception becomes `Err(fault)` of the `Result` type in
  `Outcomes`. The faults are `KeyError`, `ValueError`, `IndexError` and
  `ZeroDivision`.
- **Randomness.** Every random choice becomes an explicit draw passed in as a
  parameter:
  - the palette positions `random.choices` picks;
  - the coin of `random.random()` and the pick of `random.choice` in `mutate`;
  - the population positions of each tournament;
  - the `randbelow(7)` behind `random.randint(1, 7)`.

  Every operation is therefore a deterministic function of its draws.
- **Scores.** Scores are exact rationals (`real`). The float comparisons in
  `fitness` are restated as integer tests and proved equivalent:
  - the climax window;
  - the rest share;
  - the two half averages.
- **Selection and evolution** (modules `Selection` and `Evolution`) take the
  raw score as a parameter `fit`. They are proved for every scoring function.
  `MelodyRun` then instantiates `fit` with `fitness` and runs `main`'s
  parameters: 250 melodies, 100 generations, 25 elites, tournaments of 5 and
  a mutation rate of 0.07.
- **Quirks kept exactly as written.** Each is stated by a lemma:
  - the REST index −1 takes part in interval and direction arithmetic;
  - the climax is the first position of the maximal index;
  - `range_used` counts REST as a symbol;
  - only a REST that follows a note closes a phrase;
  - there is no guard on the niche count;
  - the trace records the raw fitness of the top melody by *shared* fitness;
  - chord degrees 0 and below wrap to the end of the row by Python's negative
    indexing;
  - `create_scale` reduces notes mod 128.

`shared_fitness` divides by the bare niche count (melody_generator.py:208-212),
so a radius of zero or less raises `ZeroDivisionError`
(`Diversity.SharingWithoutRadius`).

## Model

| member | source | states |
|---|---|---|
| Modes.StepTableWellFormed | melody_generator.py:23-32 | The step table lists exactly the eight modes; each is seven positive steps that sum to one octave (12). |
| Modes.CumulateRises | melody_generator.py:38-40 | With positive steps the running sums rise strictly, stay between the start and start + total, and end at start + total. |
| Modes.GetNotes | melody_generator.py:35-41 | Fails, with KeyError, exactly for a mode outside the table; otherwise 8 strictly rising notes from the root, each within an octave of it, the last exactly 12 above the root. |
| Modes.CMajorScale | melody_generator.py:23-41 | From MIDI 60 the major mode gives 60, 62, 64, 65, 67, 69, 71, 72. |
| Symbols.PaletteIsInPalette | melody_generator.py:48 | The palette holds exactly the symbols `get_note_index` accepts, a rest or a scale note, and holds the rest marker three times. |
| Symbols.NoteIndex | melody_generator.py:87-90 | −1 exactly for a rest; for a note, the position of its first occurrence in the scale. |
| Seqs.FirstIndex | melody_generator.py:90 | `list.index`: a position holding the value, with no earlier position holding it. |
| Seqs.ArgMax | melody_generator.py:120 | `max` with a key: a position whose key is at least every key and strictly above every earlier key. |
| Variation.Draw | melody_generator.py:50 | A melody of one symbol per draw, symbol j being the palette entry at draw j; all in the palette. |
| Variation.InitializePopulation | melody_generator.py:46-50 | `max(size, 0)` melodies, each of `max(4 * bars, 0)` palette symbols, melody i spelled by draws i. |
| Variation.Crossover | melody_generator.py:56-61 | With cut = len(p1) // 2: the child agrees with p1 below the cut and with p2 from the cut on; its length is cut plus p2's tail; equal-length parents give a child of that length. |
| Variation.CrossoverSelf | melody_generator.py:56-61 | Crossing a melody with itself returns it. |
| Variation.CrossoverKeepsPalette | melody_generator.py:56-61 | Parents from the palette give a child from the palette. |
| Variation.Mutate | melody_generator.py:65-79 | Keeps the length; a position changes only if its coin is below the rate; a position whose coin is below the rate holds the drawn palette symbol; palette melodies stay in the palette. |
| Variation.MutateZeroRate | melody_generator.py:72 | Rate 0 is the identity. |
| Variation.MutateFullRate | melody_generator.py:72-76 | At rate 1 the result depends only on the draws, not on the melody. |
| Scoring.Indices | melody_generator.py:87-90 | One index per symbol: −1 exactly where the symbol is a rest, and otherwise a scale position holding that symbol's note. |
| Scoring.ClimaxPosition | melody_generator.py:120 | The climax position lies inside the melody. |
| Scoring.PhraseBonus | melody_generator.py:162-173 | One counted phrase earns between −5 and +10 before the per-phrase 20. |
| Scoring.NextPhrasing | melody_generator.py:158-175 | One pass of the loop keeps `phrase_start` just after a REST, counts at most one phrase and only at a closing REST, and changes the bonus by −5 to +10 per phrase it counts. |
| Scoring.Scan | melody_generator.py:157-175 | The phrasing loop counts at most one phrase per closing REST still ahead, and its bonus moves by −5 to +10 per counted phrase. |
| Scoring.BoundaryScore | melody_generator.py:110-113 | 0, 20 or 40 points: 40 exactly when the melody starts and ends on the tonic, 0 exactly when it does neither. |
| Scoring.MaxScore | melody_generator.py:197 | `max_score` equals 30·length + 45 + 5·distinct and is at least 30·length + 50, so never zero. |
| Scoring.Fitness | melody_generator.py:81-201 | On a melody of at least two palette symbols the normalised score is non-negative, and positive exactly when the raw score is positive. |
| Scoring.FitnessOutcome | melody_generator.py:81-201 | `fitness` succeeds exactly on melodies of at least two palette symbols. An empty melody raises IndexError, a foreign symbol ValueError, and one symbol ZeroDivisionError (`length // 2 == 0`). |
| FitnessFacts.LeapTestRedundant | melody_generator.py:98-101 | The `interval != 1` clause never decides the leap test. |
| FitnessFacts.IndexOfDegree | melody_generator.py:87-90 | In a strictly rising scale the index of its k-th note is k. |
| FitnessFacts.RestSentinelIntervals | melody_generator.py:98-107 | A REST next to the note of degree k is a step exactly when k is the tonic and a leap exactly when k ≥ 4, and then the step or leap count is positive. |
| FitnessFacts.RestTransitionsHaveDirection | melody_generator.py:184-189 | Moving off a REST onto a note counts as upward; moving onto a REST counts as downward. |
| FitnessFacts.ResolutionIsLeap | melody_generator.py:93-101 | On an eight-note scale every rewarded resolution, leading tone to tonic, is also penalised as a leap. |
| FitnessFacts.ClimaxIsFirstMaximum | melody_generator.py:120 | The climax is the first position holding the greatest scale index. |
| FitnessFacts.ClimaxWindow | melody_generator.py:121-122 | The climax reward is 10 exactly when 4·length ≤ 10·position ≤ 6·length. |
| FitnessFacts.RestShareWindow | melody_generator.py:130-140 | The rest term is +20 exactly when length ≤ 10·rests and 4·rests ≤ length, else −10. |
| FitnessFacts.BalanceByHalfSums | melody_generator.py:143-148 | The balance term compares the two half sums: −10 when the first is smaller, else +10. |
| FitnessFacts.DistinctCountsRest | melody_generator.py:116-117 | `len(set(individual))` is the number of distinct pitches plus one if a REST occurs. |
| FitnessFacts.TrailingPhraseNeverCounted | melody_generator.py:157-178 | A melody with no REST after its first symbol counts no phrase and earns nothing for phrasing. |
| FitnessFacts.LastClose | melody_generator.py:160-175 | The latest closing REST before a position, or −1: it closes a phrase and no REST after it does. |
| FitnessFacts.NextPhrasingKeepsState | melody_generator.py:157-175 | One pass keeps `phrase_start` just after the last closing REST and `current_phrase_length` equal to the notes since then. It counts a phrase exactly at a closing REST with at least two notes since the previous closing, and pays that phrase's rewards. |
| FitnessFacts.ScanCountsPhrases | melody_generator.py:151-178 | From any position the loop counts exactly the closing RESTs ahead with at least two notes since the previous closing, and adds exactly the per-phrase rewards of those phrases. |
| FitnessFacts.PhraseScoreCountsPhrases | melody_generator.py:151-178 | `total_phrases` is the number of closing RESTs with at least two notes since the previous closing. The phrasing score is the sum of those phrases' rewards plus 20 for each of them. |
| FitnessFacts.DirectionNeedsBoth | melody_generator.py:180-195 | The direction term is +20 exactly when some neighbouring pair rises and some pair falls, and −20 otherwise. |
| FitnessFacts.RawScoreByRule | melody_generator.py:83-195 | The raw score is the sum of the rules. Each counted rule contributes its weight times the number of positions where it holds. The climax, rest and balance terms are their integer tests, phrasing is its counted phrases, and the direction term needs both a rise and a fall. |
| Diversity.Distance | melody_generator.py:204-205 | At most the shorter length, and zero for equal melodies. |
| Diversity.DistanceSymmetric | melody_generator.py:204-205 | distance(a, b) == distance(b, a). |
| Diversity.DistanceZeroIffEqual | melody_generator.py:204-205 | On equal lengths, distance zero exactly when the melodies are equal. |
| Diversity.DistanceTriangle | melody_generator.py:204-205 | On equal lengths, the triangle inequality. |
| Diversity.NicheCount | melody_generator.py:211 | At most the population size; at least 1 for a member with radius ≥ 1; 0 for a radius ≤ 0. |
| Diversity.SharedFitness | melody_generator.py:208-212 | Raises ZeroDivisionError exactly when the niche is empty; otherwise between 0 and the raw fitness. |
| Diversity.SharingOfMember | melody_generator.py:208-212 | For a member and radius ≥ 1 sharing succeeds and never raises the fitness. |
| Diversity.SharingWithoutRadius | melody_generator.py:208-212 | With radius ≤ 0 the niche is empty and the division fails. |
| Selection.Rank | melody_generator.py:218 | Every position below n occurs, each entry is below n, and the order is the stable descending order of the keys: a permutation. |
| Selection.EliteIndices | melody_generator.py:217-220 | The first `TopCount` positions of the stable descending ranking, each preceding every position left out. |
| Selection.SharedKeys | melody_generator.py:217 | Each member's key is its score over its niche count, and that count is at least 1. |
| Selection.SelectBest | melody_generator.py:215-220 | `TopCount(top_n, |pop|)` members, the k-th being the population member at the k-th elite position. |
| Selection.SelectBestOrder | melody_generator.py:215-220 | Elites come in non-increasing key order, ties keep population order, and no member left out has a greater key than any elite. |
| Selection.Tournament | melody_generator.py:223-227 | Raises ValueError exactly when there are no participants; otherwise returns one of the drawn participants. |
| Selection.TournamentPicksFirstFittest | melody_generator.py:227 | The winner is the first participant of maximal raw score. |
| Evolution.Offspring | melody_generator.py:269 | The `while` loop fills the population: elites plus children reach `population_size`, exactly so whenever any child is bred. |
| Evolution.Breed | melody_generator.py:270-276 | Each position of the child holds the drawn palette symbol if its coin is below the mutation rate. Otherwise it comes from the first tournament winner below half the length and from the second from there on. The child has the population's length and palette. |
| Evolution.Children | melody_generator.py:269-278 | Child c is bred from the c-th set of draws; all children have the population's length and palette. |
| Evolution.ElitesUniform | melody_generator.py:265-266 | The elites of a population of one length and palette are such melodies too. |
| Evolution.Step | melody_generator.py:261-287 | Succeeds exactly when tournaments have participants (or no child is bred) and there is at least one elite, with the matching fault otherwise. On success: the elites are unmodified at the front, the population is filled to `population_size`, length and palette are kept, and the trace grows by the raw score of `best[0]`. |
| Evolution.StepBreedsChildren | melody_generator.py:264-280 | The next population is the elites followed by exactly the children bred from the generation's draws, in order; with no child to breed it is the elites alone. |
| Evolution.TraceRecordsTopShared | melody_generator.py:283 | The recorded `best[0]` is the top member by shared fitness: no member has a greater shared key. |
| Evolution.Evolve | melody_generator.py:261-287 | k generations succeed exactly when one does; they keep the population size, length and palette, and extend the trace by exactly k scores without changing earlier ones. |
| MelodyRun.SharedKeysAreSharedFitness | melody_generator.py:215-217 | On well-formed melodies the keys selection sorts by are the values of `shared_fitness` with radius 5. |
| MelodyRun.MainRun | melody_generator.py:249-287 | `main`'s run never fails. It ends with 250 melodies of `4 * bars` palette symbols and a trace of 100 scores. |
| Chords.NoteTableIsOneOctave | chord_generator.py:6-10 | Every root lies between MIDI 60 and 71. |
| Chords.ChordTablesConsistent | chord_generator.py:13-49 | The modes with chord rows are the modes with steps, every row has 7 entries, and every chord type has 3 or 4 offsets rising from 0 within an octave. |
| Chords.ChordShapeOf | chord_generator.py:25-37 | Each chord structure has 3 or 4 offsets rising from 0 and staying below 12. |
| Chords.WrapTail | chord_generator.py:60-63 | Keeps the first note and reduces each later note into 0..127 without changing it mod 128. |
| Chords.CreateScale | chord_generator.py:51-65 | ValueError for an unknown root, checked before the mode; KeyError for an unknown mode; otherwise 8 notes from the root's MIDI number, the rest within 0..127. |
| Chords.CreateScaleIsGetNotes | chord_generator.py:51-65 | For every listed root the mod 128 never changes a note: the scale equals `get_notes`, rises strictly and ends an octave up. |
| Chords.TypeOf | chord_generator.py:72-75 | The chord type of degree d is row entry (d − 1) mod 7, as Python's negative indexing reads it: entry d − 1 for d ≥ 1 and entry d + 6 for d ≤ 0. |
| Chords.Position | chord_generator.py:77 | `(degree_index + offset) % len(scale)` lies in 0..7 and is the plain sum when that is already in range. |
| Chords.ChordOf | chord_generator.py:77 | One note per offset of the degree's chord type (3 or 4), each the scale note at that wrapped position. |
| Chords.ChordsOf | chord_generator.py:71-79 | IndexError exactly when some degree lies outside the row; otherwise one chord per degree, in order. |
| Chords.GenerateChordProgression | chord_generator.py:67-80 | The root's ValueError, then the mode's KeyError; for a known root and mode, success exactly when every degree lies in −6..7; one chord per degree. |
| Chords.ChordInScale | chord_generator.py:77 | Every chord note is a scale note, and a degree 1..7 starts its chord on scale note d − 1. |
| Chords.ProgressionChords | chord_generator.py:67-80 | Each chord of a progression has 3 or 4 notes, all from `get_notes` of the root, starting on the degree's scale note. |
| Chords.MajorRow | chord_generator.py:41 | The major row is major, minor, minor, major, dominant seventh, minor, diminished. |
| Chords.CMajorTonicChord | chord_generator.py:67-80 | C major, progression [1], gives [[60, 67, 72]]. |
| Chords.DegreeZeroWraps | chord_generator.py:72-77 | Degree 0 is accepted: it takes the diminished entry at the end of the row and gives [[72, 64, 69]]. |
| Chords.DegreeRange | chord_generator.py:72-75 | Degrees 8 and −7 raise IndexError and −6 is accepted. |
| Chords.RandomProgression | chord_generator.py:82-88 | `max(length, 0)` degrees, each in 1..7. |
| Chords.RandomProgressionIsPlayable | chord_generator.py:82-88 | A random progression always succeeds for a listed root and mode, with one chord per degree. |
| Chords.IntendedChord | chord_generator.py:25-37 | A chord whose notes lie the chord type's semitone offsets above the degree's scale note. |
| Chords.IntendedProgression | chord_generator.py:67-80 | Succeeds exactly for a listed root and mode. Each chord starts on the degree's `get_notes` note and its notes lie the chord type's offsets above it. |
| Chords.IntendedCMajorTonic | chord_generator.py:26 | With semitone offsets the C major tonic chord is C–E–G, [60, 64, 67]. |
| Chords.OffsetsUsedAsScalePositions | chord_generator.py:77 | As written the C major tonic is [60, 67, 72]; as intended it is [60, 64, 67]. |
| Audio.NamePositions | audio.py:34 | The seven names are distinct. |
| Audio.NoteNumber | audio.py:33-37 | IndexError exactly for the empty string. Otherwise ValueError unless the last character is a digit and the rest is a listed name. A result lies in 0..114. |
| Audio.SpellRoundTrip | audio.py:33-37 | Every number whose remainder mod 12 is below 7, up to 119, is read back from its spelling. |
| Audio.ReadRoundTrip | audio.py:35-37 | Every name that reads succeeds is the spelling of its number: the reading is one-to-one. |
| Audio.OctaveAddsTwelve | audio.py:37 | Raising the octave digit by one adds exactly 12. |
| Audio.SharpIsRejected | audio.py:35-37 | "C#4" and "C" raise ValueError; "" raises IndexError. |
| Audio.PoolNumbers | audio.py:15 | The melody pool C4..B4 reads as 48..54, one apart. |
| Audio.MidiNumber | audio.py:33-37 | Fails on exactly the names `note_to_midi_note_number` fails on, with the same fault; results lie in 12..131. |
| Audio.MidiOfOctaveFour | audio.py:33-37 | A natural in octave 4 is 60 plus its semitone offset above C. |
| Audio.MidiOctaveAddsTwelve | audio.py:37 | One octave up adds 12 in MIDI numbering too. |
| Audio.PoolIsCMajor | audio.py:15 | In MIDI numbering the pool is the C major scale from 60, as `get_notes(60, 'major')` gives it. |

## Left out

- Prompts, printing, file writing, MIDI files and pygame playback are left out as I/O. This covers `main`'s prompts and output, `play_chords`, the module-level code of chord_generator.py, and `create_melody_midi`.
- The distributions of `random.*` are left out. Draws are inputs and no probability is reasoned about.
- Python floats are modelled as exact rationals. The rest share, climax and balance tests of `fitness` are proved equal to integer comparisons on exact values. Float rounding near their boundaries is not modelled.
- Selection.SelectBest and Selection.EliteIndices: order melodies by exact shared keys, not by Python's doubly rounded ones. `shared_fitness` rounds `fitness` (score over `max_score`) and then rounds again when dividing by the niche count. With `max_score` 300, a raw score of 15 in a niche of 1 gives 0.05, but a raw score of 45 in a niche of 3 gives 0.049999999999999996. Python's sort puts the first ahead; the model ties them and keeps population order. So the elites, `best[0]` and the recorded trace can differ from the program's.
- `note_to_midi_note_number`'s `int()` also accepts non-ASCII Unicode digits. The model accepts only '0'..'9'.
- The `'REST': None` root of `main`'s table is not a valid root and is left out. It would crash `get_notes`.
- The chord type names are modelled as an enumeration. The table lookup by name is the `Structure` function, and every name in the rows is a key of the structure table.
- MelodyRun.MelodyFitness: it scores a melody `fitness` would reject as 0 instead of raising. Every melody of the run is well formed, so this case never arises there, and `Scoring.FitnessOutcome` models the exceptions separately.
- MelodyRun.MainRun: requires at least one bar and a scale of at least five notes. With no bars every melody is empty and `fitness` raises IndexError in the first generation; `get_notes` always gives eight notes.
- Evolution.Step: an empty population with children to breed is outside its precondition. No participant can be drawn from it, and `random.choices` raises IndexError there.
- Scoring.Fitness: states no upper bound of 1 on the normalised score, because `max_score` is not proved to bound the raw score.

## Findings

| source | as written | input that shows it | evidently intended | confidence | as-written member | corrected member |
|---|---|---|---|---|---|---|
| chord_generator.py:77 | The chord-structure offsets, semitones by the table's own comments, are added to the scale index and taken mod 8. | C major, progression [1] gives [[60, 67, 72]] (C, G, C). | Offsets counted in semitones above the degree's note: [[60, 64, 67]] (C, E, G). | not executed; high | Chords.OffsetsUsedAsScalePositions | Chords.IntendedProgression |
| audio.py:37 | The name's position among the seven naturals plus 12 per octave, so naturals are one apart and C4 is 48. | "C4" gives 48 and "D4" gives 49. | MIDI note numbers, as the function's name and the note messages it feeds promise: C4 = 60, D4 = 62. | not executed; medium | Audio.PoolNumbers | Audio.PoolIsCMajor |
