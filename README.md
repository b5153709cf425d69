# Burger agent: cart, router and purchase flow

This project models the core of a LangGraph burger-ordering agent in Dafny and proves properties of the model.

The agent keeps a shopping cart, a `PurchaseInformation`. The cart is an ordered list of burger lines plus three running totals: items, quantity and price. Two graph nodes and two tools update the cart in place. A router reads the model's last turn and picks the next steps. A purchase flow runs prepare, then an approval gate, then a yes/no decision, then execution, over a fixed edge table. The runtime configuration is resolved from the environment, a config map and defaults.

Modules, one per file:

- `Wrappers`: `Option` and `Result`.
- `Text`: Python's `str()` of integers with its parser, ASCII `lower()`/`upper()`, and `", ".join`.
- `Json`: `json.dumps` string escaping with its decoder, and the text of a flat object of strings.
- `Records`: the dataclasses of `state.py` as values, their defaults, and `dict()`/`json()`.
- `Cart`: the cart invariant, add, remove (`list.remove`), and their algebra.
- `AgentState`: the mutable `PurchaseInformation` and `State` classes, and the message types.
- `Constants`: the menu catalogue and the prompts.
- `Configuration`: `Configuration.from_runnable_config`.
- `Tools`: the tools of `tools.py`.
- `Graph`: the router, the cart nodes, the purchase flow and the edge table.

The cart invariant is `total_items == |items|`, `total_quantity == Σ quantity` and `total_price == Σ price × quantity`. The source never checks it. The model proves that every add and every successful remove preserves it.

The cart nodes and tools work in place, as the source does:

- `PurchaseInformation.AddLine` and `PurchaseInformation.RemoveLine` update the object's fields.
- `State.EnsurePurchaseInformation` creates the cart lazily.
- Each method's postcondition ties the new state to the value-level functions `Cart.Added` and `Cart.Removed`.

These properties of the graph follow from the code as written:

- `should_continue` can return "agent" when the last message is not an AI message. "agent" is not among the targets declared for the agent node's conditional edge (`Graph.RecoveryTargetUndeclared`).
- `prepare_purchase_burger_items`'s own update never leaves a tool result as the last message. Its ask ends with an assistant message, and an overwrite appends nothing after the model's turn. So when prepare is the only node scheduled in its step, the `purchase_approval` gate on the fixed edge after it raises (`Graph.PrepareNeverSatisfiesApproval`).
- When the model's turn also calls another tool, the router fans out to prepare and to the generic tool node in the same step. The tool node's result then ends the log, and the gate passes (`Graph.FanoutWithToolResultPassesApproval`). The decision after it then reads a tool's output, not a user reply.
- On every run of the graph, `execute_purchase` comes right after that gate (`Graph.ExecuteOnlyAfterPrepareAndApproval`).

## Model

| member | source | states |
|---|---|---|
| Records.NewPurchaseBurgerItem | src/agent/state.py:31-39 | a new line keeps the given id, name, price and quantity, and its options default to the empty list |
| Records.OptionDict | src/agent/state.py:22-24 | `BurgerOption.dict()` has exactly the keys id, name, price, in field order; the id and price values are the numbers' `str()` text, which parses back to them, and the name is kept as is |
| Records.OptionDictNumbers | src/agent/state.py:22-24 | looked up by key, the id and price values of `BurgerOption.dict()` parse back to the option's numbers |
| Records.ItemDict | src/agent/state.py:41-43 | `PurchaseBurgerItem.dict()` has exactly the five field names as keys, in field order; id, price and quantity are the numbers' `str()` text, which parses back to them; the name is kept; options is the list's repr |
| Records.InfoDict | src/agent/state.py:60-62 | `PurchaseInformation.dict()` has exactly the four field names as keys, in field order |
| Records.InfoJson | src/agent/state.py:64-66 | `json()` of a cart value is a JSON object text wrapped in braces |
| Records.InfoDictTotals | src/agent/state.py:60-62 | each total in `dict()` is the decimal text of the number, which parses back to that number |
| Records.ItemDictNumbers | src/agent/state.py:41-43 | looked up by key, a line's id, price and quantity in `dict()` parse back to the line's numbers |
| Records.InfoJsonShape | src/agent/state.py:64-66 | `json()` is a four-entry JSON object whose totals are JSON strings of decimal digits, not JSON numbers, and whose items entry is the repr text |
| Text.IntToString | src/agent/state.py:62 | `str()` of a non-negative int is non-empty decimal digits; of a negative int, '-' followed by decimal digits |
| Text.IntToStringCanonical | src/agent/state.py:62 | the text is canonical: no leading zero except "0" itself, and a negative number has at least one digit after '-', the first not '0' |
| Text.ParseIntToString | src/agent/state.py:62 | `str()` of an int parses back to the same int |
| Text.IntToStringInjective | src/agent/state.py:62 | distinct ints have distinct `str()` texts |
| Text.Lower | src/agent/graph.py:296 | `lower()` maps each ASCII capital to its small letter and keeps every other character |
| Text.Upper | src/agent/configuration.py:50 | `upper()` maps each ASCII small letter to its capital and keeps every other character |
| Json.Escape | src/agent/state.py:66 | the escaped text of a string is never shorter than the string |
| Json.EscapeKeepsLengthIffPlain | src/agent/state.py:66 | the escaped text has the string's length exactly when every character is plain, and is then the string itself |
| Json.ObjectText | src/agent/state.py:66 | `json.dumps` of a dict of strings is wrapped in braces, and an empty dict gives "{}" |
| Json.EscapeChar | src/agent/state.py:66 | a printable ASCII character other than quote and backslash is kept as is; every other character becomes an escape starting with a backslash |
| Json.EscapeIsAscii | src/agent/state.py:66 | the escaped text is pure printable ASCII, as `json.dumps` writes by default |
| Json.UnescapeEscape | src/agent/state.py:66 | decoding the escaped text gives back the original string, astral characters included |
| Cart.EmptyIsConsistent | src/agent/state.py:54-57 | a fresh cart (no items, all totals zero) satisfies the cart invariant |
| Cart.Added | src/agent/graph.py:139-144 | adding appends the line at the end and keeps the cart invariant |
| Cart.RemoveFirst | src/agent/graph.py:187 | `list.remove` deletes exactly the first equal line: the result is one shorter and the multiset loses exactly that line |
| Cart.Removed | src/agent/graph.py:187-192 | removing fails exactly when no equal line exists; otherwise it deletes the first equal line and keeps the cart invariant |
| Cart.SumsOfPermutation | src/agent/graph.py:141-143 | the quantity and price sums depend only on the multiset of lines |
| Cart.AddThenRemove | src/agent/graph.py:139-192 | add then remove of the same line succeeds and restores all three totals and the multiset of lines; if the line was absent before, the cart is restored exactly |
| Cart.RemoveThenAdd | src/agent/graph.py:139-192 | remove then add of a present line restores the totals and the multiset of lines |
| Cart.RunKeepsConsistent | src/agent/graph.py:136-192 | any sequence of adds and removes, failed removes included, keeps the cart invariant |
| Cart.Run | src/agent/graph.py:136-192 | a run of adds and removes, where a failed remove changes nothing, adds at most one line per action, never holds a line that was neither there before nor added, and moves `total_items` in step with the list's length |
| Cart.ReachableCartsAreConsistent | src/agent/state.py:54-57 | every cart built from a fresh one by adds and removes satisfies the invariant |
| AgentState.OrEmpty | src/agent/graph.py:136-137 | a missing cart stands for the fresh empty one; an existing one stands for itself |
| AgentState.PurchaseInformation.constructor | src/agent/state.py:54-57 | a new `PurchaseInformation` has no items and zero totals, and is consistent |
| AgentState.PurchaseInformation.Dict | src/agent/state.py:60-62 | `dict()` of the object is `InfoDict` of its fields: the four field names as keys, the totals as `str()` text that parses back to the object's totals, and the items as their repr |
| AgentState.PurchaseInformation.JsonText | src/agent/state.py:64-66 | the object's `json()` is the JSON object text of its own `dict()` |
| AgentState.PurchaseInformation.AddLine | src/agent/graph.py:139-144 | the object's fields become `Cart.Added` of their old value, and the invariant is preserved |
| AgentState.PurchaseInformation.RemoveLine | src/agent/graph.py:187-192 | fails exactly when no equal line exists, leaving the fields unchanged; otherwise the fields become `Cart.Removed` of their old value, and the invariant is preserved |
| AgentState.State.constructor | src/agent/state.py:69-74 | a new state keeps the given messages and has no cart |
| AgentState.State.EnsurePurchaseInformation | src/agent/graph.py:136-137 | an existing cart object is kept; a missing one is replaced by a fresh empty object; the messages are untouched |
| Constants.CatalogueWellFormed | src/agent/constants.py:3-22 | the catalogue has 18 entries with ids 1 to 18 in order and positive prices |
| Configuration.FromRunnableConfig | src/agent/configuration.py:41-55 | since falsy values are dropped and every default is truthy, no field of the result is falsy |
| Configuration.FieldOfResolved | src/agent/configuration.py:49-55 | every init field of the result is the resolution of that field's name |
| Configuration.EnvironmentKeys | src/agent/configuration.py:50 | the environment variables read are USER_ID, MODEL, MAX_SEARCH_RESULTS and the other upper-cased field names |
| Configuration.EnvironmentTakesPrecedence | src/agent/configuration.py:50 | a non-empty environment variable wins over the config map |
| Configuration.ConfigurableUsedWithoutEnvironment | src/agent/configuration.py:50 | without the environment variable, a truthy config-map entry is used |
| Configuration.FalsyFallsBackToDefault | src/agent/configuration.py:55 | a falsy resolved value (None, "", 0, False) is dropped, so the field's default applies |
| Configuration.EmptyEnvironmentValueHidesConfigurable | src/agent/configuration.py:50-55 | an empty environment variable hides the config-map entry, and the default applies |
| Configuration.MissingConfigurableIsEmpty | src/agent/configuration.py:46-48 | no config, or one without "configurable", resolves like an empty map |
| Configuration.OnlyDeclaredFieldsAreRead | src/agent/configuration.py:49-53 | config-map keys that are not init fields have no effect |
| Configuration.NothingSetGivesDefaults | src/agent/configuration.py:19-39 | with nothing set, the result is the defaults: "default", "openai/gpt-4o-mini", the prompts and 5 |
| Tools.AllToolsDistinct | src/agent/tools.py:179-187 | `ALL_TOOLS` is five distinct tools |
| Tools.SuggestBurgers | src/agent/tools.py:49-62 | the suggestion is the whole static catalogue of 18 burgers, whatever the state |
| Tools.PurchaseBurgerItems | src/agent/tools.py:80-92 | the confirmation text reports the payload's total quantity, which reads back from the text |
| Tools.ConfirmationReadsBack | src/agent/tools.py:92 | the quantity written into a confirmation reads back unchanged |
| Tools.GetCurrentPurchaseInformation | src/agent/tools.py:95-105 | returns the state's own cart object, possibly None, and changes nothing |
| Tools.AddBurgerToCartTool | src/agent/tools.py:108-129 | creates the cart lazily and updates it in place to `Cart.Added` of its old value, then returns the `json()` of the updated cart |
| Tools.RemoveBurgerFromCartTool | src/agent/tools.py:132-153 | creates the cart lazily; fails exactly when no equal line exists, leaving the totals as they were; otherwise updates the cart in place to `Cart.Removed` and returns its `json()` |
| Graph.ToolRouter | src/agent/graph.py:86-94 | each of the three cart and purchase tool names routes to its own node, and every other name routes to "tools", in both directions |
| Graph.RouteCalls | src/agent/graph.py:110 | exactly one step per tool call, in call order |
| Graph.ShouldContinue | src/agent/graph.py:79-110 | raises exactly on an empty log; a single route is "agent" or END; a fan-out has one step per tool call of the last AI message, at least one, each routed from its call's name |
| Graph.ShouldContinueCases | src/agent/graph.py:96-110 | an empty log raises; a non-AI last message routes to "agent"; an AI message without tool calls routes to END; otherwise the router fans out, each case exactly when its condition holds |
| Graph.FanoutFollowsCalls | src/agent/graph.py:110 | a fan-out has one step per tool call, at least one, with the i-th step routed from the i-th call's name |
| Graph.AllToolsRouting | src/agent/graph.py:86-94 | of the five tools, purchase, add and remove have dedicated nodes; suggest and the cart query fall through to "tools" |
| Graph.FirstCallIndex | src/agent/graph.py:121-128 | finds the first call with the name, or reports that none has it |
| Graph.ExpectedCall | src/agent/graph.py:117-132 | succeeds exactly when the last message is an AI message with a call of the name, and then returns the first such call; otherwise it gives the matching error |
| Graph.ItemPayload | src/agent/graph.py:134 | the `purchase_burger_item` argument, present exactly when it is a burger line |
| Graph.AddBurgerToCartStep | src/agent/graph.py:113-156 | succeeds exactly when the call is found and its payload is a line; then the cart becomes `Cart.Added` of the old (or fresh) cart and the reply is one tool message for that call saying "Successfully added {name} to {user}'s cart."; a failed call check leaves the cart untouched; on any error the totals are unchanged; the cart invariant is preserved |
| Graph.RemoveBurgerFromCartStep | src/agent/graph.py:159-204 | succeeds exactly when the call is found and its payload is a line the cart holds; then the cart becomes `Cart.Removed` of the old (or fresh) cart and the reply is one tool message for that call saying "Successfully removed {name} to {user}'s cart."; on any error the totals are unchanged; the invariant is preserved |
| Graph.AddBurgerToCart | src/agent/graph.py:113-156 | the state's cart object is updated in place, or created, to the outcome of `AddBurgerToCartStep` for the resolved user id, and the node returns its messages or error |
| Graph.RemoveBurgerFromCart | src/agent/graph.py:159-204 | the state's cart object is updated in place, or created, to the outcome of `RemoveBurgerFromCartStep`, and the node returns its messages or error |
| Graph.CartTurnCall | src/agent/graph.py:117-134 | a model turn holding one cart call is found by the node and yields the line it carries |
| Graph.AddNodeThenRemoveNode | src/agent/graph.py:136-192 | the add node then the remove node for the same line both succeed and restore all three totals and the multiset of lines, and restore the cart exactly when the line was new |
| Graph.RemoveNodeOfAbsentLine | src/agent/graph.py:187 | a remove call for a line the cart lacks raises and leaves the totals as they were |
| Graph.BigMacScenario | src/agent/graph.py:136-192 | two 빅맥® at 6900 KRW into a missing cart give one line, 2 units and 13800 KRW; removing the line gives the empty cart |
| Graph.MissingInformationMessages | src/agent/graph.py:227-234 | one tool message per tool call, in order, naming the call's tool and carrying its id |
| Graph.PreparePurchaseBurgerItems | src/agent/graph.py:207-246 | raises exactly when the call check fails; an overwrite carries only a truthy payload; an ask holds one message per tool call plus the assistant's ask, last |
| Graph.PrepareCases | src/agent/graph.py:209-246 | call errors propagate; a truthy `purchase_information` argument is handed back unchanged to replace the cart; otherwise one ask per tool call plus the assistant's ask, and no cart update |
| Graph.PurchaseApproval | src/agent/graph.py:249-253 | passes exactly when the last message is a tool result |
| Graph.PrepareNeverSatisfiesApproval | src/agent/graph.py:207-253 | when prepare is the only node of its step, the log its own update leaves makes the approval gate raise |
| Graph.FanoutWithToolResultPassesApproval | src/agent/graph.py:86-110 | a turn calling the purchase tool and the suggestion tool fans out to prepare and "tools", and with the tool node's result last the approval gate passes |
| Graph.ShouldExecutePurchase | src/agent/graph.py:292-299 | routes to "execute_purchase" exactly when the last content is "y" or "yes" in any mix of cases, and otherwise to "agent" |
| Graph.LowerSaysYes | src/agent/graph.py:296-297 | lower-casing and comparing with "yes"/"y" accepts exactly the ten case spellings |
| Graph.ReadPurchaseSummaryBack | src/agent/graph.py:286 | the closing text's quantity and price read back unchanged |
| Graph.ExecutePurchase | src/agent/graph.py:256-289 | raises without a cart; otherwise emits exactly three messages: an AI call carrying the cart, a tool result `{"success": true}` with the same id, and an AI text stating total quantity and total price |
| Graph.FixedSuccessor | src/agent/graph.py:330-345 | every node except the agent, the approval gate and END has exactly one fixed successor, and none of those nodes has a conditional edge |
| Graph.ConditionalTargets | src/agent/graph.py:347-360 | only the agent and the approval gate have conditional edges, only the agent's reaches END, and none reaches START |
| Graph.Predecessors | src/agent/graph.py:330-360 | only the approval gate leads to execute, only prepare leads to approval, only the agent leads to prepare; nothing leads back to START, and END has no successor |
| Graph.ExecuteOnlyAfterPrepareAndApproval | src/agent/graph.py:330-360 | on every run from START, execution comes directly after the approval gate, which follows prepare, which follows the agent |
| Graph.RouterTargets | src/agent/graph.py:79-110 | every fan-out step and END are declared targets of the agent's conditional edge, and the "agent" recovery route is not |
| Graph.RecoveryTargetUndeclared | src/agent/graph.py:100-101 | the router can return "agent", which the agent's conditional edge does not declare |
| Graph.DecisionTargetsDeclared | src/agent/graph.py:358-360 | the purchase decision names only the approval node's declared targets |

## Left out

- Prices are whole KRW integers. The source declares `float` prices, so `str()` of a float price ("6900.0") is not modelled.
- Records.ReprStr copies the name between single quotes. Python's `repr` switches to double quotes for a name holding `'` but no `"`, escapes backslashes, control and non-printable characters, and escapes `'` when both quote kinds occur. So the model is exact only for names made of printable characters other than `'` and `\`.
- Graph.AddBurgerToCartStep: when the payload is missing or is not a line, the source appends it and bumps `total_items` before the arithmetic raises. The model raises right after the lazy creation and leaves the totals alone.
- The graph nodes append the model's raw argument dicts, while the tools append `PurchaseBurgerItem` dataclass instances. A dict never equals a dataclass instance, so in the source `list.remove` cannot remove a line that the other path added. The model uses one line type for both paths, so such a remove succeeds in the model. For the same reason, `dict()`/`json()` print a node-added line in its payload dict's own key order, without `options` when the payload lacks it, while the model always prints field order with `options`.
- Graph.PrepareNeverSatisfiesApproval covers prepare alone in its step. Nodes scheduled beside it by a fan-out, and how the framework merges their updates, are not modelled; `Graph.FanoutWithToolResultPassesApproval` shows one such case where the gate passes.
- A line whose payload dict lacks "options" compares unequal in the source to the same line with an empty options list. The model always carries an options list.
- The conversion of node results into framework messages, the `add_messages` reducer, graph compilation and execution, streaming chunks, and async scheduling are framework behaviour. The node's returned messages are modelled, not how they are merged.
- Graph.PreparePurchaseBurgerItems: the prepare node's tool messages carry an `id` but no `tool_call_id`, and how the framework treats that is not modelled. The overwrite is returned as an update, not applied to the state.
- The `agent` node (an LLM call with a memory store), the `search` and `search_burger_info_by_id` tools, and src/agent/tool_node.py are not part of this model. These are foreign calls, and tool_node.py is not wired into the graph.
- The `json()` methods of `BurgerOption`, `PurchaseBurgerItem` and `State` call `json.dump` without a file and cannot work. They are not modelled. `State.dict()` is not modelled either.
- `str.lower()`/`str.upper()` are modelled on ASCII only. This is exact for the yes/no decision, since no other character lower-cases to 'y', 'e' or 's'.
- `random.random()` in the execute step's call id is a parameter. `os.environ` is a map parameter.
- The prompts are kept as constants. Their formatting with user memories and time belongs to the `agent` node.
