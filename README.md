# LM Studio configuration wizard: the recommendation engine, verified

This project models the decision logic of `lmstudio-config-wizard`, a command-line tool. The tool
detects the host hardware and asks a few questions about a local language model. Then it proposes
LM Studio settings: context length, GPU offload, CPU threads, batch size, sampling parameters and
memory flags.

Two pieces are modelled:

- **`recommend_settings`** (module `Recommender`, `recommender.dfy`). This is a pure function from
  the hardware dictionary and the model-profile dictionary to a flat twelve-key configuration:
  - the context-length and batch-size tables keyed by model-size bucket, with the RAM-based
    fallback for an unlisted bucket;
  - the GPU gates (an "Apple M" name, or 4096 MB for offload and 8192 MB for flash attention);
  - the thread cap of 8 and the RAM threshold for keeping the model in memory;
  - the first-match goal chain for temperature, top_p and top_k;
  - the fixed fields, and the returned dictionary with its key order.
- **The suggestion block of `ask_model_profile`** (module `ModelProfile`, `model_profile.dfy`). It
  takes a default settings dictionary and updates it in place by an `if`/`elif` chain on the goal
  text, which has no `else`. It is a method over a local map. The method is proved equal to a
  specification function. The record the questionnaire returns is modelled as well. The answers
  to the prompts are parameters.

Supporting modules:

- `Strings.Contains` is Python's `sub in s`.
- `Values` holds the Python values and the ordered `dict`.
- `GoalRules.FirstMatch` is a first-match choice over an ordered list of (keyword, sampling) rules.
  Its contract characterises the first matching rule. Both goal chains are proved equal to
  `FirstMatch` over their own tables.
- `Consistency` relates the two files. The questionnaire's profile is what the engine reads. The
  two goal tables agree on the four named goals. For "Balanced" they differ only in `top_k`: 40 in
  the questionnaire and 60 in the engine. This is proved for every goal text, and
  `Consistency.GoalChoiceRows` proves it for each of the five choices the questionnaire offers,
  emoji prefixes included.

Points of the code the model keeps as written:

- An unlisted size bucket takes its context length from the RAM rule and batch size 1
  (recommender.py:41, 86).
- Full offload is the literal 999 (recommender.py:58).
- Goals are matched by substring (recommender.py:91-103).
- The code asserts nothing at run time. The validity conditions (context length > 0,
  batch size >= 1, 0 <= top_p <= 1, temperature > 0) are postconditions of `Recommend`. The thread
  bound holds only when the core count is at least 1.

The engine is a total, side-effect-free function, so calling it twice with the same inputs gives
the same result by construction. The two methods, `ModelProfile.SuggestSettings` and
`ModelProfile.AskModelProfile`, have ensures clauses that fix their result uniquely, so the same
holds for them.

## Model

| member | source | states |
|---|---|---|
| `Recommender.GpuMemoryMb` | recommender.py:14-17 | A missing `gpu_memory_mb` key gives 0. A value `int()` accepts gives that integer. A value on which `int()` raises `ValueError` or `TypeError` (such as "Unknown" or "6144 MB") gives 0 instead of an exception. |
| `Recommender.RamContextLength` | recommender.py:24-28 | The RAM-only context length is always one of 2048, 4096 or 8192. |
| `Recommender.ContextLength` | recommender.py:30-41 | The context length after the size-bucket override is always positive. |
| `Recommender.BatchSize` | recommender.py:74-86 | The batch size is between 1 and 16 for every bucket, listed or not. |
| `Recommender.GpuOffload` | recommender.py:44-65 | The offload layer count is 0 or 999, never anything else. |
| `Recommender.FlashAttention` | recommender.py:120-126 | Flash attention on implies full GPU offload. |
| `Recommender.CpuThreads` | recommender.py:67-70 | Threads are at most 8 and at most the core count. They equal one of the two. They are at least 1 when there is at least one core. |
| `Recommender.GoalSampling` | recommender.py:89-110 | Every branch of the goal chain has temperature > 0, 0 <= top_p <= 1 and top_k > 0. |
| `Recommender.Recommend` | recommender.py:3-146 | The whole configuration satisfies the validity conditions: context > 0, batch >= 1, temperature > 0, top_p in [0, 1], threads capped, offload 0 or 999, flash implying offload. Repeat penalty is 1.1, max tokens 1024 and mmap on. The keep-in-memory flag is on exactly when RAM >= 24 GB. |
| `Recommender.ConfigDict` | recommender.py:131-144 | The returned dictionary's keys are the twelve names in the source's insertion order. |
| `Recommender.ConfigDictWellFormed` | recommender.py:131-144 | The returned dictionary has each key once and no other key. |
| `Recommender.ConfigDictRoundTrip` | recommender.py:131-146 | Reading the twelve keys back from the returned dictionary recovers the configuration exactly. |
| `Recommender.SizingTable` | recommender.py:24-86 | Each of the six listed buckets gets its exact (context, batch) pair. Any other bucket gets batch 1 and the RAM rule (>= 32 GB gives 8192, >= 16 GB gives 4096, else 2048). |
| `Recommender.MissingRamIsEightGb` | recommender.py:9-28 | Without `ram_gb` the RAM is taken as 8 GB: the model is not kept in memory, and an unlisted size bucket gets context length 2048. |
| `Recommender.MissingModelSizeIsOther` | recommender.py:31-41 | A profile without `model_size` is sized as "Other": context 2048, batch 1. |
| `Recommender.SizingMonotone` | recommender.py:32-85 | From "Under 2 GB" to "More than 13 GB", batch size never increases and context length never decreases. |
| `Recommender.GpuGating` | recommender.py:45-65 | Offload is 999 exactly when the GPU name contains "Apple M" or the memory is >= 4096 MB. It is 0 exactly otherwise. |
| `Recommender.FlashAttentionGating` | recommender.py:122-126 | Flash attention is on exactly when the name contains "Apple M" or the memory is >= 8192 MB. |
| `Recommender.OffloadWithoutFlashAttention` | recommender.py:49-126 | The converse fails: a 6144 MB "NVIDIA RTX 3060" gets offload 999 and flash attention off. |
| `Recommender.NonNumericMemoryIsCpuOnly` | recommender.py:14-126 | A memory value `int()` rejects, with a name that is not "Apple M", gives offload 0 and flash attention off. |
| `Recommender.MissingGpuNameIsNotApple` | recommender.py:12 | Without a `gpu` key the name "None" is not an Apple M chip. |
| `Recommender.ThreadPolicy` | recommender.py:10-70 | Threads are min(cores, 8). A missing core count gives 4 threads. |
| `Recommender.GoalSamplingIsFirstMatch` | recommender.py:91-110 | The goal chain is the first-match choice over the rules Creativity, Accuracy, Natural Dialogue and Factual Recall, in that order, with (0.7, 0.9, 60) when none matches. |
| `Recommender.SamplingTable` | recommender.py:91-110 | The configuration's (temperature, top_p, top_k) row by row, in priority order: (1.0, 0.95, 100), (0.3, 0.85, 50), (0.7, 0.9, 40), (0.4, 0.8, 30), else (0.7, 0.9, 60). |
| `Recommender.DefaultGoalMatchesNoKeyword` | recommender.py:20-110 | The default goal "Balanced/general purpose" contains none of the four keywords, so it takes the else row. |
| `Recommender.MissingGoalIsBalanced` | recommender.py:20-110 | A profile without `goal` gets (0.7, 0.9, 60). |
| `Recommender.FixedFields` | recommender.py:112-128 | Repeat penalty 1.1, max tokens 1024 and mmap on are the same for any two inputs. Keep-in-memory is on exactly when RAM >= 24 GB. |
| `Recommender.ScenarioAppleAccuracy` | recommender.py:3-146 | Apple M3 Max, 64 GB, 16 cores, 8-13 GB, Accuracy gives the full configuration (8192, 999, 8, 2, 0.3, 0.85, 50, 1.1, 1024, true, true, true). |
| `Recommender.ScenarioCpuCreativity` | recommender.py:3-146 | No GPU, 8 GB, 4 cores, under 2 GB, Creativity gives (1024, 0, 4, 16, 1.0, 0.95, 100, 1.1, 1024, false, false, true). |
| `Recommender.ScenarioNvidiaBalanced` | recommender.py:3-146 | A 6144 MB NVIDIA RTX 3060, 16 GB, 12 cores, over 13 GB, balanced goal gives (16384, 999, 8, 1, 0.7, 0.9, 60, 1.1, 1024, false, false, true). |
| `GoalRules.FirstMatch` | recommender.py:91-110 | The result is absent exactly when no rule's keyword occurs. Otherwise it is the sampling of the first rule, in list order, whose keyword occurs in the goal. |
| `ModelProfile.SuggestSettings` | model_profile.py:79-97 | The in-place updated dictionary equals the defaults updated by the first matching rule, or the defaults when none matches. It keeps the five default keys, with repeat_penalty 1.1 and max_tokens 1024. |
| `ModelProfile.FirstMatchOfProfileRules` | model_profile.py:88-97 | The first-match choice over the five profile rules is the `if`/`elif` chain: Creativity, Accuracy, Natural Dialogue, Factual Recall, Balanced, and nothing otherwise. |
| `ModelProfile.SuggestedShape` | model_profile.py:80-97 | Every suggestion has exactly the five default keys, keeps repeat_penalty 1.1 and max_tokens 1024, and equals the defaults when no keyword occurs. |
| `ModelProfile.SuggestedChangesOnlySampling` | model_profile.py:85-97 | Any key other than temperature, top_p and top_k keeps its default value for every goal. |
| `ModelProfile.DefaultMatchingBranches` | model_profile.py:80-97 | When the Natural Dialogue or the Balanced branch is taken, the update writes back the defaults, so the result is the default dictionary. |
| `ModelProfile.SuggestedSampling` | model_profile.py:80-97 | Every suggestion holds a real temperature and top_p and an integer top_k. They are the first matching rule's values, or the defaults' (0.7, 0.9, 40) when no keyword occurs. |
| `ModelProfile.SuggestedTable` | model_profile.py:80-97 | The suggested (temperature, top_p, top_k) by first match: (1.0, 0.95, 100), (0.3, 0.85, 50), (0.7, 0.9, 40), (0.4, 0.8, 30), (0.7, 0.9, 40). With no keyword, the defaults are unchanged. |
| `ModelProfile.AskModelProfile` | model_profile.py:106-115 | The returned profile passes every answer through unchanged, `model_size` and `goal` included. Its `generation_settings` is the suggestion for the goal. |
| `Consistency.SharedRules` | model_profile.py:88-97 | The questionnaire's first four rules are the engine's four rules. Its fifth is Balanced (0.7, 0.9, 40), while the engine's else row is (0.7, 0.9, 60). |
| `Consistency.NamedGoalsAgree` | recommender.py:91-106 | For any goal containing one of the four named keywords, the questionnaire's suggestion and the engine pick the same (temperature, top_p, top_k). |
| `Consistency.BalancedGoalsDiffer` | model_profile.py:96-97 | For a goal with none of the four keywords but containing "Balanced", the two agree on temperature and top_p. They differ in top_k: 40 in the questionnaire, 60 in the engine. |
| `Consistency.UnmatchedGoalsDiffer` | model_profile.py:80-97 | A goal with no keyword at all keeps the questionnaire defaults, which again differ from the engine only in top_k (40 against 60). |
| `Consistency.CreativityChoiceKeywords` | model_profile.py:71 | The offered Creativity text contains "Creativity". |
| `Consistency.AccuracyChoiceKeywords` | model_profile.py:72 | The offered Accuracy text contains "Accuracy" and not "Creativity". |
| `Consistency.DialogueChoiceKeywords` | model_profile.py:73 | The offered Natural Dialogue text contains "Natural Dialogue" and neither earlier keyword. |
| `Consistency.RecallChoiceKeywords` | model_profile.py:74 | The offered Factual Recall text contains "Factual Recall" and none of the three earlier keywords. |
| `Consistency.BalancedChoiceKeywords` | model_profile.py:75 | The offered balanced text contains "Balanced" and none of the four named keywords. |
| `Consistency.GoalChoiceRows` | model_profile.py:68-97 | For each of the five offered goals, the rows picked by the engine and by the questionnaire. They are equal for the first four. For the balanced goal they are (0.7, 0.9, 60) and (0.7, 0.9, 40). |
| `Consistency.SizeChoicesAreTableKeys` | model_profile.py:12-22 | Every offered size is a key of both size tables, so the RAM fallback never decides for a questionnaire answer. |
| `Consistency.ProfileFeedsEngine` | model_profile.py:106-115 | The engine sizes a returned profile by its size answer. For a named goal it samples exactly as the profile's `generation_settings` say. |

## Left out

- `hardware_utils.py` is not part of this model. It probes the hardware through subprocesses and
  regular expressions over their output. Its output is a parameter here. It reports GPU memory as
  text such as "6144 MB", which `int()` rejects. `NonNumericMemoryIsCpuOnly` states what follows
  from that.
- `cli.py` is not part of this model: argument parsing, console tables, timestamps and YAML export
  are I/O.
- The questionnaire prompts and prints (model_profile.py:4-77 and 99-104) are I/O. Their answers
  are the `Answers` parameter. An aborted prompt, whose answer would be `None`, is not modelled.
- Exceptions the source does not catch are not modelled: `int()` raising `OverflowError` on
  `gpu_memory_mb` (recommender.py:15-17 catch only `ValueError` and `TypeError`), and a
  non-numeric `ram_gb`, whose comparison raises `TypeError` (recommender.py:25).
- Python's `int()` parsing is not modelled. `GpuMemory` records only its outcome: an integer, or a
  rejection.
- A non-numeric `logical_cores` is not modelled. `int()` would crash there (recommender.py:10),
  since no `try` guards it. The model takes the core count as an integer.
- A `gpu` entry that is not a string is not modelled. With `None`, the substring test would raise.
- Floating point is not modelled: RAM and the sampling constants are exact reals, compared only
  against literals.
- The `ModelProfile` settings dictionary is a map. Its insertion order is not modelled: the updates
  only overwrite existing keys, so the five keys stay in their default order (model_profile.py:80-97),
  and the prints read them by key (model_profile.py:100-104). The engine's output dictionary keeps its key
  order in `Values.Dict`.
- The unused `import math` (recommender.py:1).
