# Todo-list store and theme preference, in Dafny

This project models the two pieces of state logic of a small React todo-list app.

1. The `useTodo` hook. It keeps an ordered list of todos (`id`, `text`, `completed`) and a view filter (`all`, `active`, `completed`). Its operations are `addTodo`, `toggleTodoCompleted`, `removeTodo`, `clearCompleted` and `setFilter`. It also derives the view `filteredTodos`.
2. The `ThemeProvider` component. It keeps a `light`/`dark` theme, initialises it from browser storage under the key `"@todoList: theme"`, flips it with `toggleTheme`, and writes its JSON encoding back to that key after every change.

Files:

- `seqs.dfy` (module `Seqs`) has the order-preserving filter that JavaScript's `Array.prototype.filter` performs. It also defines the subsequence relation that makes "order-preserving" precise. Its lemmas cover length, counts, idempotence, partition and concatenation. `FilterUnique` shows that these facts determine the filtered result completely.
- `use_todo.dfy` (module `UseTodo`) has the `Todo` and `Filter` datatypes and `String.prototype.trim`. The list transformations are pure functions with lemmas. The `TodoStore` class holds the two state cells `todolist` and `filter`. Each of its methods installs one transformation's result, as the hook's setters do. Two client methods replay a scenario. The first does three submissions, one of them blank. The second toggles the first todo and reads both views.
- `theme_provider.dfy` (module `Theme`) has `ThemeName`, the JSON encoding and decoding of the two themes, the initialiser and the flip. The `ThemeProvider` class has the fields `theme` and `storage: map<string, string>`. A client method shows that a toggle survives a remount.

Three behaviours of the code are easy to misread; the model keeps them as written:

- `addTodo` checks `todoItem.trim()` for emptiness but stores the untrimmed `todoItem`, so the model stores the raw text.
- Nothing makes ids unique. `toggleTodoCompleted` and `removeTodo` act on every todo with a matching id. No contract of the store's operations assumes the ids are distinct. The two lemmas that need a fresh or a distinct id, `RemoveUndoesAdd` and `ToggleFirstOfTwo`, say so in their requires, and so does the client `ToggleFirstThenView`.
- A stored theme that is not one of the two encodings is not turned into `dark`. The model decodes only the exact strings that `JSON.stringify` writes, and the provider's constructor requires the stored value to be absent or one of them.

## Model

| member | source | states |
|---|---|---|
| `UseTodo.IsWhitespace` | src/hooks/useTodo.ts:20 | no contract; it is the set `trim` strips, the ECMAScript WhiteSpace and LineTerminator code points; specified through `UseTodo.Trim` |
| `UseTodo.TrimStart` | src/hooks/useTodo.ts:20 | the result is a suffix of the input; every dropped character is whitespace; a non-empty result starts with a non-blank |
| `UseTodo.TrimEnd` | src/hooks/useTodo.ts:20 | the result is a prefix of the input; every dropped character is whitespace; a non-empty result ends with a non-blank |
| `UseTodo.Trim` | src/hooks/useTodo.ts:20 | `trim()` is empty exactly when every character is ECMAScript whitespace; a non-empty result starts and ends with a non-blank |
| `UseTodo.NoBlankText` | src/hooks/useTodo.ts:20-26 | no contract; the list invariant that no todo has text whose `trim()` is empty; preserved by `UseTodo.ToggledKeepsNoBlankText`, `UseTodo.FilterKeepsNoBlankText` and every store method |
| `UseTodo.TodoStore.Valid` | src/hooks/useTodo.ts:20-26 | no contract; the store invariant `UseTodo.NoBlankText(todolist)`, established by the constructor and required and ensured by every store method |
| `UseTodo.TodoStore.constructor` | src/hooks/useTodo.ts:11-12 | the list starts empty and the filter starts at `all`; the invariant holds |
| `UseTodo.TodoStore.AddTodo` | src/hooks/useTodo.ts:14-31 | blank text changes neither cell; otherwise the list grows by exactly one, the old list is kept as a prefix, the new last todo has the given id, the raw untrimmed text and `completed = false`, and the filter becomes `all`; the invariant is kept, because only non-blank text is appended |
| `UseTodo.ThreeSubmissions` | src/hooks/useTodo.ts:14-31 | two non-blank submissions around a blank one leave exactly the two non-blank texts, in order, both open, with the filter at `all` |
| `UseTodo.Toggled` | src/hooks/useTodo.ts:35-46 | the mapped list has the same length as the original |
| `UseTodo.ToggledAt` | src/hooks/useTodo.ts:35-46 | at every position, `id` and `text` are kept; `completed` is flipped exactly when the id matches; a todo whose id does not match is left identical |
| `UseTodo.ToggledTwice` | src/hooks/useTodo.ts:35-46 | toggling the same id twice restores the original list |
| `UseTodo.ToggledUnknownId` | src/hooks/useTodo.ts:35-46 | toggling an id that no todo carries leaves the list unchanged |
| `UseTodo.ToggledKeepsNoBlankText` | src/hooks/useTodo.ts:35-46 | toggling keeps every text, so a list without blank texts stays without them |
| `UseTodo.TodoStore.ToggleTodoCompleted` | src/hooks/useTodo.ts:33-50 | the list becomes the toggled list, the filter is unchanged and the invariant is kept |
| `Seqs.Filter` | src/hooks/useTodo.ts:52 | the result is no longer than the input; the same `Array.prototype.filter` is used at lines 61 and 65; specified by `Seqs.FilterUnique` and the lemmas beside it |
| `UseTodo.Matches` | src/hooks/useTodo.ts:53-57 | no contract; specified by `UseTodo.ViewSpec`, `UseTodo.ViewAll` and `UseTodo.ViewPartition` |
| `UseTodo.View` | src/hooks/useTodo.ts:52-58 | no contract; specified by `UseTodo.ViewSpec`, `UseTodo.ViewAll` and `UseTodo.ViewPartition` |
| `UseTodo.ViewSpec` | src/hooks/useTodo.ts:52-58 | the view is an order-preserving subsequence of the list that holds every occurrence of a matching todo and no other todo |
| `UseTodo.ViewAll` | src/hooks/useTodo.ts:52-54 | under `all` the view is the whole list |
| `UseTodo.ViewPartition` | src/hooks/useTodo.ts:52-58 | the `active` and `completed` views have sizes summing to the list's length, together hold the list's contents, and share no todo |
| `UseTodo.FilterKeepsNoBlankText` | src/hooks/useTodo.ts:61-65 | any filter of a list without blank texts is again without them, as used by `clearCompleted` and `removeTodo` |
| `Seqs.FilterUnique` | src/hooks/useTodo.ts:52 | the only subsequence of a list that holds exactly the kept occurrences is the filtered list |
| `UseTodo.TodoStore.FilteredTodos` | src/hooks/useTodo.ts:52-58 | the value is an order-preserving subsequence of `todolist` holding exactly the occurrences the current filter matches; under `all` it is `todolist` |
| `UseTodo.WithoutCompleted` | src/hooks/useTodo.ts:61 | no contract; specified by `UseTodo.ClearedSpec` |
| `UseTodo.ClearedSpec` | src/hooks/useTodo.ts:60-62 | clearing leaves no completed todo, keeps every occurrence of the other todos in order, equals the `active` view, and is idempotent |
| `UseTodo.TodoStore.ClearCompleted` | src/hooks/useTodo.ts:60-62 | the list becomes the cleared list, the filter is unchanged and the invariant is kept |
| `UseTodo.WithoutId` | src/hooks/useTodo.ts:65 | no contract; specified by `UseTodo.RemovedSpec` and `UseTodo.RemoveUndoesAdd` |
| `UseTodo.RemovedSpec` | src/hooks/useTodo.ts:64-66 | removal leaves no todo with that id, keeps every occurrence of the others in order, and shortens the list exactly when some todo had that id |
| `UseTodo.RemoveUndoesAdd` | src/hooks/useTodo.ts:64-66 | removing the id of a todo that was just appended under a fresh id restores the list from before the append |
| `UseTodo.TodoStore.RemoveTodo` | src/hooks/useTodo.ts:64-66 | the list becomes the list without that id, the filter is unchanged and the invariant is kept |
| `UseTodo.TodoStore.SetFilter` | src/hooks/useTodo.ts:12 | the filter becomes the given value, the list is unchanged and the invariant is kept |
| `UseTodo.ToggleFirstOfTwo` | src/hooks/useTodo.ts:35-58 | toggling the first of two open todos with different ids completes exactly that todo; afterwards the `completed` view shows only it and the `active` view only the other |
| `Theme.Stringify` | src/contexts/ThemeProvider.tsx:20 | the JSON encoding of a theme is a quoted string, and decoding it gives back the theme |
| `Theme.Parse` | src/contexts/ThemeProvider.tsx:14 | no contract; specified by `Theme.Stringify` and `Theme.ParseOnlyEncodings`; it decodes exactly the two strings `JSON.stringify` writes |
| `Theme.ParseOnlyEncodings` | src/contexts/ThemeProvider.tsx:14 | the decoder accepts only the two encodings, and re-encoding what it read gives the stored string |
| `Theme.InitialTheme` | src/contexts/ThemeProvider.tsx:11-17 | with the key absent the initial theme is `dark`; with it present it is the decoded stored value |
| `Theme.PersistedThemeReloads` | src/contexts/ThemeProvider.tsx:14 | a theme written under the key is read back by a fresh initialiser, whatever the other keys hold |
| `Theme.Flip` | src/contexts/ThemeProvider.tsx:24 | the flip always yields the other theme |
| `Theme.FlipTwice` | src/contexts/ThemeProvider.tsx:24 | flipping twice restores the theme |
| `Theme.ThemeProvider.constructor` | src/contexts/ThemeProvider.tsx:11-21 | the theme is the initialiser's result; the storage then holds its encoding under the key and is otherwise as given |
| `Theme.ThemeProvider.RemountReadsTheme` | src/contexts/ThemeProvider.tsx:14 | while the storage mirrors the theme, a fresh initialiser over that storage reads the current theme |
| `Theme.ThemeProvider.ToggleTheme` | src/contexts/ThemeProvider.tsx:19-25 | the theme becomes the other theme; the storage holds the new encoding under the key and every other key is untouched |

## Left out

- The JSX rendering, the Tailwind class table in `src/contexts/theme.ts`, the React context creation in `src/contexts/ThemeContext.ts` and the components are UI. They call the store but hold no store logic.
- The form plumbing of `addTodo` is not modelled: `preventDefault`, reading the `todo` field from `FormData` and resetting the form. The operation takes the submitted string directly. The case where the field is missing (a `null` cast to `string`) is not modelled.
- `Date.now()` is a clock read. The id is a parameter of `AddTodo`, and nothing about its uniqueness is assumed or proved.
- `Todo.id` is a JavaScript `number`, a double, while the model uses `int`. Ids only ever come from `Date.now()`, which returns whole milliseconds well within the doubles' exact integer range. They are only compared with `===` and `!==` (lines 36 and 65), so no rounding is involved.
- React scheduling is not modelled. Each operation runs as one atomic step and reads the current state. This covers functional updaters versus the closure-captured `todolist` in `toggleTodoCompleted`, batching of the two setters in `addTodo`, and the timing of `useEffect`.
- `localStorage` is not modelled as real I/O; it is a map field. General `JSON.parse` and `JSON.stringify` are not modelled, only the two quoted theme names.
- Theme.ThemeProvider.constructor: requires the stored value to be absent or exactly `"light"` or `"dark"` with the quotes, as `JSON.stringify` writes them. This excludes three kinds of stored string. Some make `JSON.parse` throw. Some decode to a value that is not a theme. Others decode to a real theme but differ from what is written at line 20, such as a padded ` "dark" ` or an escaped `"d\u0061rk"`. The model covers none of the three.
- A Dafny `string` is a sequence of Unicode scalar values, while a JavaScript string is a sequence of UTF-16 code units. Nothing in the core depends on the difference. Every ECMAScript whitespace character is a single BMP code unit, and `FormData` yields strings of scalar values.
- The "N items total" count in the list component only displays the view's length.
