# Moztrap test results and test-data factories, in Dafny

This project models two parts of the moztrap test-case manager (formerly
Case Conductor).

**The `Result` lifecycle.** A `Result` records one tester running one case
version in one environment. It moves through these statuses:

- *created*;
- *started* (`start`);
- *passed*, *failed* or *invalidated* (`finishsucceed`, `finishfail`, `finishinvalidate`);
- back to *started* (`restart`).

A result keeps its started and completed timestamps, the user who last
modified it, a comment, and its step results.

- `finishfail` can name a failing step by its number, given as text. The
  step result of that step is then created, or updated if one exists, as
  failed, optionally with a bug URL.
- A step number that names no step is ignored.
- `bug_urls` collects the distinct bug URLs of the step results.

The implementing module of `Result` is not part of this model. Its behaviour
is taken from its unit tests in
`tests/model/execution/models/test_result.py`.

**The factories' construction rules** (`tests/factories.py`):

- A new case version, or a new case step, is numbered one past the highest
  existing number, or 1 if there is none.
- `EnvironmentFactory.create_set` takes category names and lists of element
  names. It makes one category per name and one environment per list;
  element i of a list goes into category i.
- `EnvironmentFactory.create_full_set` takes categories with their element
  names. It makes every category and element, then one environment per
  combination of one element from each category, in the order
  `itertools.product` yields them.

Files:

- `wrappers.dfy`: `Option`.
- `library.dfy`: case versions, case steps, and the "numbers are distinct"
  invariants.
- `execution.dfy`: step-number parsing, step lookup, step results, bug URLs
  and the `Result` class with its transitions. At its end, five scenario
  methods (`ScenarioBugUrls`, `ScenarioFailStep`,
  `ScenarioFailExistingStepResult`, `ScenarioBadStepNumberIgnored`,
  `ScenarioRestartClears`) replay the result tests on concrete values and
  assert the outcomes the tests expect:
  - two step results sharing a bug URL give that URL once;
  - `stepnumber="1"` with or without a bug creates a failed step result;
  - an existing step result is updated, not duplicated;
  - `stepnumber="2"` with no such step adds nothing;
  - restart clears the completion time, the comment and step results.
- `itertools.dfy`: the Cartesian product and its properties. The product
  has as many combinations as the product of the list lengths. Its members
  are exactly the combinations of one element per list. It repeats no
  combination when the lists repeat no element.
- `environments.dfy`: categories, elements, environments, and a `Store`
  class standing for the tables that hold them.
- `factories.dfy`: the next-number rule, and `create_set` / `create_full_set`
  as loops over the store. Beside them are lemmas about what a set and a
  full set contain.

How the model represents the system:

- Datetimes are opaque timestamps (`nat`). The clock is the `now`
  parameter.
- Users are identities (`nat`).
- Database rows are values in the store. Each row's identity is its
  position in its table.
- An absent comment or bug URL is the empty string.

## Model

| member | source | states |
|---|---|---|
| Execution.ParseStepNumber | tests/model/execution/models/test_result.py:180-190 | a step-number text designates a number exactly when it is a non-empty string of decimal digits; the number read is the one whose decimal text is the numeral without its leading zeros |
| Execution.ParseDecimalString | tests/model/execution/models/test_result.py:186 | the decimal text of any number (such as "1") is read back as that number |
| Execution.StrippedIsCanonical | tests/model/execution/models/test_result.py:186 | the decimal text of a numeral's value is the numeral with its leading zeros removed |
| Execution.ParseIgnoresLeadingZero | tests/model/execution/models/test_result.py:186 | a leading zero does not change the number a step-number text designates |
| Execution.FindStep | tests/model/execution/models/test_result.py:220-228 | finds the first step of the case version carrying the given number; when none is found, no step has that number |
| Execution.LookupStep | tests/model/execution/models/test_result.py:180-228 | a step is found exactly when a step number is given, is numeric, and some step of the case version has that number; the step found is that step |
| Execution.LookupStepByNumber | tests/model/execution/models/test_result.py:180-190 | with distinct step numbers, the decimal text of a step's number finds exactly that step |
| Execution.IndexOfStep | tests/model/execution/models/test_result.py:193-205 | finds the position of the step result for a step, or shows that there is none |
| Execution.RecordFailure | tests/model/execution/models/test_result.py:180-217 | afterwards the step has a failed result carrying the bug URL. An existing result for that step is updated in place and nothing else changes. Otherwise one result is appended. There is still one result per step |
| Execution.CollectBugUrls | tests/model/execution/models/test_result.py:53-67 | a URL is collected exactly when it is non-empty and some step result carries it |
| Execution.Result.BugUrls | tests/model/execution/models/test_result.py:53-67 | a result's bug URLs are exactly the non-empty URLs that some of its step results carry, each once |
| Execution.BugUrlsBound | tests/model/execution/models/test_result.py:53-67 | there are no more distinct URLs than step results with a bug URL, and no more of those than step results |
| Execution.BugUrlsCollapseDuplicates | tests/model/execution/models/test_result.py:53-67 | two step results with the same bug URL give fewer distinct URLs than step results with bugs (duplicates are dropped) |
| Execution.Result.constructor | tests/factories.py:257-262 | a new result is created, with no completion time, no modifier, no comment and no step results |
| Execution.Result.AddStepResult | tests/factories.py:266-270 | records one more step result for a step not yet recorded, and changes nothing else |
| Execution.Result.Start | tests/model/execution/models/test_result.py:70-90 | status becomes started and the started time becomes now. A given user becomes the modifier. Comment, completion time and step results are unchanged |
| Execution.Result.FinishSucceed | tests/model/execution/models/test_result.py:93-113 | status becomes passed and the completion time becomes now. A given user becomes the modifier. Nothing else changes |
| Execution.Result.FinishInvalidate | tests/model/execution/models/test_result.py:116-145 | status becomes invalidated, the completion time becomes now and the comment is stored. A given user becomes the modifier |
| Execution.Result.FinishFail | tests/model/execution/models/test_result.py:148-228 | status becomes failed, the completion time becomes now and the comment is stored. The step that the step number designates gets a failed result with the bug URL. A step number naming no step leaves the step results unchanged |
| Execution.Result.Restart | tests/model/execution/models/test_result.py:231-283 | status becomes started and the started time becomes now, from any status. The completion time, the comment and all step results are cleared |
| Factories.MaxOf | tests/factories.py:105 | the highest number is one of the numbers and no number exceeds it |
| Factories.NextNumber | tests/factories.py:102-107 | 1 when there are no numbers; otherwise one past an existing number and above every number |
| Factories.NextVersionNumber | tests/factories.py:102-107 | a new version of a case gets 1 when the case has no versions, else one past its highest version number |
| Factories.NextStepNumber | tests/factories.py:126-131 | a new step of a case version gets 1 when it has no steps, else one past its highest step number |
| Factories.NewVersionKeepsNumbersDistinct | tests/factories.py:102-107 | a version numbered by the rule never repeats a version number |
| Factories.NewStepKeepsNumbersDistinct | tests/factories.py:126-131 | a step numbered by the rule never repeats a step number |
| Factories.CreateCategories | tests/factories.py:180-181 | one new category per name, in order, numbered on from the existing ones |
| Factories.CreatePositionalElements | tests/factories.py:186-189 | one new element per name, element i named by name i and placed in category i |
| Factories.CreatePositionalEnvironment | tests/factories.py:185-194 | one new environment made of newly created elements, element i named by name i in category i |
| Factories.CreateSet | tests/factories.py:163-196 | makes the categories, then one environment per list of names, in order; each environment's element i is named by the list and belongs to category i. Exactly these rows are added |
| Factories.SetEnvironmentCategoriesDistinct | tests/factories.py:180-189 | within one environment of a set, no two elements belong to the same category |
| Factories.ElementListsUpToShape | tests/factories.py:209-217 | the element lists made so far hold, for item j, its names in order, all in the category made for item j, with no element twice |
| Factories.FullSetListsShape | tests/factories.py:209-217 | as above, for all items |
| Factories.ElementListsStep | tests/factories.py:209-217 | the lists for one more item extend the earlier lists by that item's list, numbered on from the elements made so far |
| Factories.CreateItem | tests/factories.py:210-217 | one category for the item, then one element of it per name |
| Factories.ItemCategories | tests/factories.py:210-211 | categories made one per item, in item order, are the categories of the item names |
| Factories.CreateCategoryElements | tests/factories.py:211-217 | one new element of the category per name, in order |
| Factories.CreateElementLists | tests/factories.py:207-217 | one category per item, in item order, followed by its elements; returns the element lists and adds exactly these rows |
| Factories.CreateEnvironments | tests/factories.py:220-225 | one new environment per combination, in order |
| Factories.CreateFullSet | tests/factories.py:199-227 | makes every category and element, then one environment per combination that `itertools.product` yields, in that order |
| Factories.FullSetCount | tests/factories.py:199-227 | a full set has as many environments as the product of the numbers of element names |
| Factories.FullSetEmptyCategory | tests/factories.py:222 | a category without elements leaves the full set empty |
| Factories.FullSetCombinationShape | tests/factories.py:199-227 | each environment of a full set has one element per category, in item order, named by that category's names |
| Factories.FullSetComplete | tests/factories.py:199-227 | every choice of one element name per category is an environment of the full set |
| Factories.FullSetNoDuplicates | tests/factories.py:222 | no two environments of a full set hold the same elements |
| Factories.CombinationElementsListed | tests/factories.py:222-224 | every element of a combination is one of the elements created |
| Itertools.Product | tests/factories.py:222 | every combination of the product holds one element per list |
| Itertools.ProductSize | tests/factories.py:222 | the product has as many combinations as the product of the list lengths |
| Itertools.ProductWithEmptyList | tests/factories.py:222 | an empty list makes the product empty |
| Itertools.ProductMembers | tests/factories.py:222 | a sequence is in the product exactly when it takes one element of each list, in list order |
| Itertools.ProductNoDuplicates | tests/factories.py:222 | lists without repeated elements give each combination once |
| Environments.Store.CreateCategory | tests/factories.py:142-145 | appends one category with the next identity and the given name; nothing else changes |
| Environments.Store.CreateElement | tests/factories.py:149-153 | appends one element with the next identity, the given name and an existing category; nothing else changes |
| Environments.Store.CreateEnvironment | tests/factories.py:157-160 | appends one environment with the next identity and the given existing elements; nothing else changes |
| Environments.Store.StoredElement | tests/factories.py:149-153 | a stored element is found under its own identity |

## Left out

- The database (Django ORM), `refresh`, `save` and the `mock` clock. They become the in-memory `Store`, the `Result` object and the `now` parameter.
- `test_unicode` (`tests/model/execution/models/test_result.py:35-50`): the text rendering of a result. This is string formatting of related rows and is not a lifecycle property.
- `tests/view/templatetags/test_mtforms.py` is not part of this model. It tests form-rendering template tags.
- `UserFactory._prepare` (password hashing) is not modelled.
- The factories that only set default attribute values are not modelled: products, suites, cases, runs, attachments and tags.
- The `SubFactory` wiring that builds related rows is not modelled. Environments carry no profile.
- Execution.Result: the tests fix only what happens when a user is given. In every transition (`Start`, `FinishSucceed`, `FinishInvalidate`, `FinishFail`, `Restart`), the model keeps the previous modifier when no user is given.
- Execution.Result: in `FinishInvalidate` and `FinishFail`, a comment that is not given is the empty string. It replaces an earlier comment, so the earlier comment is cleared; the tests do not fix this. In `FinishFail`, a bug that is not given is stored as the empty string.
- Execution.Result.Start: a test of `start` checks only the status and `started`. The model keeps the completion time and the comment.
- Execution.Result: the case version's steps are read once, when the result is made, and stay fixed for the result's lifetime. The source reads them when `finishfail` runs.
- Execution.FindStep: step numbers are not assumed distinct. With a repeated number the lookup in the source is ambiguous; the model takes the first step with that number.
- Execution.LookupStep: Python `int()` accepts surrounding whitespace and a sign, and the database lookup raises an error on a non-numeric step number. The model instead reads only plain decimal digits and ignores anything else.
- Factories.CreateSet: requires each list of element names to have no more names than there are categories. The source raises `IndexError` in that case, and the model does not model the exception.
- Factories.CreateFullSet: takes the categories as a sequence of (name, element names) pairs in the dictionary's iteration order. That order is unspecified for a Python 2 dict.
- An environment's elements are a many-to-many set in the source and a sequence here. Every element added is newly created, so the sequence never repeats an element and the two agree.
- Integer widths are not modelled: numbers and identities are unbounded.
