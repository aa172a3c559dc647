/**
 * The controllers between the HTTP routes and the use cases
 * (`TasksController`, `TelegramController`).
 */
module Controllers {
  import opened Wrappers
  import opened JsonValue
  import Task
  import ChatState
  import StartTask
  import ProcessTelegramWebhook
  import TaskPresenter
  import TelegramPresenter
  import Telegram

  /** The framework's background-task list: `schedule_background_task` appends to it. */
  class BackgroundQueue {
    var scheduled: seq<Task.StartedTask>

    constructor()
      ensures scheduled == []
    {
      scheduled := [];
    }

    method Schedule(task: Task.StartedTask)
      modifies this
      ensures scheduled == old(scheduled) + [task]
    {
      scheduled := scheduled + [task];
    }
  }

  class TasksController {
    const useCase: StartTask.StartTaskUseCase

    constructor(useCase: StartTask.StartTaskUseCase)
      ensures this.useCase == useCase
    {
      this.useCase := useCase;
    }

    /**
     * `handle_start_task`: start, schedule the started task, present it. When
     * `start` raises, nothing is scheduled.
     */
    method HandleStartTask(request: Task.TaskExecutionRequest, queue: BackgroundQueue, outcome: ChatState.WriteOutcome)
        returns (r: Result<Object, StartTask.StartError>)
      modifies useCase.gateway, useCase.gateway.files, queue
      ensures var started := StartTask.StartOutcome(old(useCase.gateway.lastChatId), useCase.fallbackChatId, request);
        && (started.Failure? ==> r == Failure(started.error) && queue.scheduled == old(queue.scheduled))
        && (started.Success? ==> r == Success(TaskPresenter.PresentTaskStarted(started.value))
                                 && queue.scheduled == old(queue.scheduled) + [started.value])
      ensures var gateway := useCase.gateway;
        old(gateway.lastChatId).None? && useCase.fallbackChatId.Some? ==>
          && gateway.lastChatId == useCase.fallbackChatId
          && gateway.files.canonical ==
             ChatState.CanonicalAfter(outcome, old(gateway.files.canonical), useCase.fallbackChatId.value)
          && gateway.files.temp == ChatState.TempAfter(outcome, old(gateway.files.temp), useCase.fallbackChatId.value)
      ensures old(useCase.gateway.lastChatId).Some? || useCase.fallbackChatId.None? ==>
        unchanged(useCase.gateway, useCase.gateway.files)
    {
      var task := useCase.Start(request, outcome);
      if task.Failure? {
        return Failure(task.error);
      }
      queue.Schedule(task.value);
      r := Success(TaskPresenter.PresentTaskStarted(task.value));
    }
  }

  class TelegramController {
    const processWebhook: ProcessTelegramWebhook.ProcessTelegramWebhookUseCase
    const getLastChat: ProcessTelegramWebhook.GetLastChatUseCase

    constructor(processWebhook: ProcessTelegramWebhook.ProcessTelegramWebhookUseCase,
                getLastChat: ProcessTelegramWebhook.GetLastChatUseCase)
      ensures this.processWebhook == processWebhook && this.getLastChat == getLastChat
    {
      this.processWebhook := processWebhook;
      this.getLastChat := getLastChat;
    }

    /** `handle_webhook`: the use case's result, presented; a rejected secret propagates. */
    method HandleWebhook(update: Object, providedSecret: Option<string>, outcome: ChatState.WriteOutcome)
        returns (r: Result<Object, ProcessTelegramWebhook.WebhookError>)
      modifies processWebhook.gateway, processWebhook.gateway.files
      ensures r.Failure? <==> ProcessTelegramWebhook.SecretRejected(processWebhook.expectedSecret, providedSecret)
      ensures r.Failure? ==> unchanged(processWebhook.gateway, processWebhook.gateway.files)
      ensures r.Success? ==> r.value == TelegramPresenter.PresentWebhookResult(Telegram.ExtractChatId(update))
      ensures var gateway := processWebhook.gateway; var id := Telegram.ExtractChatId(update);
        r.Success? && id.Some? ==>
          && gateway.lastChatId == id
          && gateway.files.canonical == ChatState.CanonicalAfter(outcome, old(gateway.files.canonical), id.value)
          && gateway.files.temp == ChatState.TempAfter(outcome, old(gateway.files.temp), id.value)
      ensures r.Success? && Telegram.ExtractChatId(update).None? ==>
        unchanged(processWebhook.gateway, processWebhook.gateway.files)
    {
      var result, _ := processWebhook.Execute(update, providedSecret, outcome);
      if result.Failure? {
        return Failure(result.error);
      }
      r := Success(TelegramPresenter.PresentWebhookResult(result.value));
    }

    method HandleLastChat() returns (body: Object)
      ensures body == TelegramPresenter.PresentLastChat(getLastChat.gateway.lastChatId)
    {
      var id := getLastChat.Execute();
      body := TelegramPresenter.PresentLastChat(id);
    }
  }
}
